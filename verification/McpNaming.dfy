/** How MCP tools get their display names (cogtrix_core/mcp_client.py): `connect_all` names the tools of
    newly connected servers, `get_langchain_tools` names them again after a restart. */
module McpNaming {
  import opened Options

  /** A tool a server offers; `wraps` tells whether a wrapper can be built for it. */
  datatype RemoteTool = RemoteTool(name: string, wraps: bool)

  /** A wrapped tool: its server, its name there, and whether it asks for confirmation. */
  datatype Wrapper = Wrapper(server: string, original: string, confirm: bool)

  /** One tool to be named. */
  datatype Item = Item(server: string, confirm: bool, tool: RemoteTool)

  datatype Mode = Connect | List

  predicate Reserved(name: string) { name in {"request_tools", "checkpoint", "query_knowledge_base"} }

  function Prefixed(i: Item): string { i.server + "_" + i.tool.name }

  /** The name chosen for a tool, or `None` when it is skipped. `taken` are the names given so far, `base`
      the names to stay clear of. In `Connect` mode reserved names are skipped, and the prefixed name is
      compared with `taken` only. */
  function Pick(mode: Mode, i: Item, taken: set<string>, base: set<string>): Option<string> {
    if mode.Connect? && Reserved(i.tool.name) then None
    else if i.tool.name !in taken && i.tool.name !in base then Some(i.tool.name)
    else if Prefixed(i) in taken || (mode.List? && Prefixed(i) in base) then None
    else Some(Prefixed(i))
  }

  predicate Names(mode: Mode, i: Item, taken: set<string>, base: set<string>) {
    Pick(mode, i, taken, base).Some? && i.tool.wraps
  }

  function Wrap(i: Item): Wrapper { Wrapper(i.server, i.tool.name, i.confirm) }

  function Add(mode: Mode, acc: map<string, Wrapper>, base: set<string>, i: Item): map<string, Wrapper> {
    if Names(mode, i, acc.Keys, base) then acc[Pick(mode, i, acc.Keys, base).value := Wrap(i)] else acc
  }

  /** The names given to `items` in turn. */
  function NameAll(mode: Mode, base: set<string>, items: seq<Item>): map<string, Wrapper> {
    if items == [] then map[]
    else Add(mode, NameAll(mode, base, items[..|items| - 1]), base, items[|items| - 1])
  }

  /** How many of them were wrapped. */
  function Wrapped(mode: Mode, base: set<string>, items: seq<Item>): nat {
    if items == [] then 0
    else
      var pre := items[..|items| - 1];
      Wrapped(mode, base, pre) + if Names(mode, items[|items| - 1], NameAll(mode, base, pre).Keys, base) then 1 else 0
  }

  /** Tool k of the list, at its turn, as `connect_all` sees it. */
  function TakenAt(mode: Mode, base: set<string>, items: seq<Item>, k: nat): set<string>
    requires k <= |items|
  {
    NameAll(mode, base, items[..k]).Keys
  }

  // ---------------------------------------------------------------------------------------------
  // Every name is new, and says where the tool comes from
  // ---------------------------------------------------------------------------------------------

  /** A name goes back to an item: it is the item's own name or its prefixed one. */
  ghost predicate NamedFor(name: string, w: Wrapper, i: Item) {
    w == Wrap(i) && i.tool.wraps && (name == i.tool.name || name == Prefixed(i))
  }

  /** No name is ever given twice: as many names as wrapped tools, each naming a tool of the list. */
  lemma {:induction false} NamesAreFresh(mode: Mode, base: set<string>, items: seq<Item>)
    ensures |NameAll(mode, base, items)| == Wrapped(mode, base, items)
    ensures forall n :: n in NameAll(mode, base, items) ==>
              exists i :: i in items && NamedFor(n, NameAll(mode, base, items)[n], i)
  {
    if items != [] {
      var pre, last := items[..|items| - 1], items[|items| - 1];
      NamesAreFresh(mode, base, pre);
      var acc := NameAll(mode, base, pre);
      forall n | n in NameAll(mode, base, items)
        ensures exists i :: i in items && NamedFor(n, NameAll(mode, base, items)[n], i)
      {
        if n in acc && NameAll(mode, base, items)[n] == acc[n] {
          var i :| i in pre && NamedFor(n, acc[n], i);
          assert i in items;
        } else {
          assert last in items && NamedFor(n, Wrap(last), last);
        }
      }
    }
  }

  /** Names once given are kept. */
  lemma {:induction false} NamesAreKept(mode: Mode, base: set<string>, items: seq<Item>, k: nat)
    requires k <= |items|
    ensures var early, all := NameAll(mode, base, items[..k]), NameAll(mode, base, items);
            forall n :: n in early ==> n in all && all[n] == early[n]
  {
    if k < |items| {
      var pre := items[..|items| - 1];
      NamesAreKept(mode, base, pre, k);
      assert pre[..k] == items[..k];
    } else {
      assert items[..k] == items;
    }
  }

  /** `get_langchain_tools` stays clear of every name it was told about. */
  lemma {:induction false} ListAvoidsBase(base: set<string>, items: seq<Item>)
    ensures NameAll(List, base, items).Keys !! base
  {
    if items != [] {
      ListAvoidsBase(base, items[..|items| - 1]);
    }
  }

  /** `connect_all` never gives a tool with a reserved name any name. */
  lemma ConnectSkipsReserved(base: set<string>, items: seq<Item>)
    ensures forall n :: n in NameAll(Connect, base, items) ==>
              !Reserved(NameAll(Connect, base, items)[n].original)
    decreases |items|
  {
    if items != [] {
      ConnectSkipsReserved(base, items[..|items| - 1]);
    }
  }

  /** The step at which `connect_all` takes a name it was told to avoid: a colliding tool whose prefixed name
      is such a name. */
  predicate Shadows(base: set<string>, items: seq<Item>, k: nat)
    requires k < |items|
  {
    var i, taken := items[k], TakenAt(Connect, base, items, k);
    i.tool.wraps && !Reserved(i.tool.name) && (i.tool.name in taken || i.tool.name in base) &&
    Prefixed(i) in base && Prefixed(i) !in taken
  }

  lemma NamesAt(mode: Mode, base: set<string>, items: seq<Item>, k: nat)
    requires k < |items|
    ensures NameAll(mode, base, items[..k + 1]) == Add(mode, NameAll(mode, base, items[..k]), base, items[k])
  {
    assert items[..k + 1][..k] == items[..k];
  }

  /** `connect_all` stays clear of the names it was told about exactly when no tool shadows one. */
  lemma ConnectAvoidsBaseIff(base: set<string>, items: seq<Item>)
    ensures NameAll(Connect, base, items).Keys !! base <==> forall k :: 0 <= k < |items| ==> !Shadows(base, items, k)
  {
    if k :| 0 <= k < |items| && Shadows(base, items, k) {
      NamesAt(Connect, base, items, k);
      NamesAreKept(Connect, base, items, k + 1);
      assert Prefixed(items[k]) in NameAll(Connect, base, items) && Prefixed(items[k]) in base;
    } else {
      NoShadowAvoids(base, items, |items|);
      assert items[..|items|] == items;
    }
  }

  lemma {:induction false} NoShadowAvoids(base: set<string>, items: seq<Item>, n: nat)
    requires n <= |items| && forall k :: 0 <= k < n ==> !Shadows(base, items, k)
    ensures NameAll(Connect, base, items[..n]).Keys !! base
  {
    if n > 0 {
      NoShadowAvoids(base, items, n - 1);
      NamesAt(Connect, base, items, n - 1);
      assert !Shadows(base, items, n - 1);
    }
  }

  // ---------------------------------------------------------------------------------------------
  // Every tool gets a name if it can
  // ---------------------------------------------------------------------------------------------

  /** A tool that may be wrapped: at connection, one with a reserved name may not. */
  predicate Admitted(mode: Mode, t: RemoteTool) {
    t.wraps && (mode.Connect? ==> t.name !in {"request_tools", "checkpoint", "query_knowledge_base"})
  }

  /** At its turn a tool gets its own name if that is free, else its prefixed name if that one is free; the names to
      be avoided are not free, except that `connect_all` does not look for the prefixed one among them. It stays
      without a name if and only if it may not be wrapped or neither is free, and no other name is touched. */
  lemma ToolIsNamedIff(mode: Mode, base: set<string>, items: seq<Item>, k: nat)
    requires k < |items|
    ensures var before, after := NameAll(mode, base, items[..k]), NameAll(mode, base, items[..k + 1]);
            var i, own, prefixed := items[k], items[k].tool.name, items[k].server + "_" + items[k].tool.name;
            var ownFree := own !in before && own !in base;
            var prefixedFree := prefixed !in before && (mode.List? ==> prefixed !in base);
            (after == before <==> !Admitted(mode, i.tool) || (!ownFree && !prefixedFree)) &&
            (own in after && own !in before <==> Admitted(mode, i.tool) && ownFree) &&
            (prefixed in after && prefixed !in before <==> Admitted(mode, i.tool) && !ownFree && prefixedFree) &&
            (forall n :: n in before ==> n in after && after[n] == before[n]) &&
            (forall n :: n in after && n !in before ==> n in {own, prefixed} && after[n] == Wrapper(i.server, own, i.confirm))
  {
    NamesAt(mode, base, items, k);
    assert |Prefixed(items[k])| > |items[k].tool.name|;
  }

  /** So in the end the own name of every tool that may be wrapped is given or was to be avoided. */
  lemma OwnNameIsTaken(mode: Mode, base: set<string>, items: seq<Item>, k: nat)
    requires k < |items| && Admitted(mode, items[k].tool)
    ensures items[k].tool.name in NameAll(mode, base, items).Keys + base
  {
    ToolIsNamedIff(mode, base, items, k);
    NamesAreKept(mode, base, items, k + 1);
  }

  // ---------------------------------------------------------------------------------------------
  // The two ways of naming
  // ---------------------------------------------------------------------------------------------

  /** The step at which a reserved name, skipped by `connect_all`, would be admitted by
      `get_langchain_tools`. */
  predicate AdmitsReserved(base: set<string>, items: seq<Item>, k: nat)
    requires k < |items|
  {
    items[k].tool.wraps && Reserved(items[k].tool.name) &&
    Pick(List, items[k], TakenAt(Connect, base, items, k), base).Some?
  }

  predicate Diverges(base: set<string>, items: seq<Item>, k: nat)
    requires k < |items|
  {
    Shadows(base, items, k) || AdmitsReserved(base, items, k)
  }

  lemma {:induction false} SameUntilDivergence(base: set<string>, items: seq<Item>, n: nat)
    requires n <= |items| && forall k :: 0 <= k < n ==> !Diverges(base, items, k)
    ensures NameAll(Connect, base, items[..n]) == NameAll(List, base, items[..n])
  {
    if n > 0 {
      SameUntilDivergence(base, items, n - 1);
      NamesAt(Connect, base, items, n - 1);
      NamesAt(List, base, items, n - 1);
      assert !Diverges(base, items, n - 1);
    }
  }

  lemma FirstDivergence(base: set<string>, items: seq<Item>, k: nat) returns (first: nat)
    requires k < |items| && Diverges(base, items, k)
    ensures first <= k && Diverges(base, items, first) && forall j :: 0 <= j < first ==> !Diverges(base, items, j)
  {
    if j: nat :| j < k && Diverges(base, items, j) {
      first := FirstDivergence(base, items, j);
    } else {
      first := k;
    }
  }

  /** A divergence is never made good later. */
  lemma DivergenceStays(base: set<string>, items: seq<Item>, k: nat)
    requires k < |items| && Diverges(base, items, k)
    ensures NameAll(Connect, base, items) != NameAll(List, base, items)
  {
    var first := FirstDivergence(base, items, k);
    if Shadows(base, items, first) {
      ConnectAvoidsBaseIff(base, items);
      ListAvoidsBase(base, items);
    } else {
      SameUntilDivergence(base, items, first);
      NamesAt(List, base, items, first);
      NamesAreKept(List, base, items, first + 1);
      ConnectSkipsReserved(base, items);
      var n := Pick(List, items[first], TakenAt(Connect, base, items, first), base).value;
      assert NameAll(List, base, items)[n] == Wrap(items[first]);
    }
  }

  /** Both give the same names to the same tools in the same order exactly when no tool shadows a name to be
      avoided and no reserved name would be admitted. */
  lemma NamingsAgreeIff(base: set<string>, items: seq<Item>)
    ensures NameAll(Connect, base, items) == NameAll(List, base, items)
            <==> forall k :: 0 <= k < |items| ==> !Diverges(base, items, k)
  {
    if k: nat :| k < |items| && Diverges(base, items, k) {
      DivergenceStays(base, items, k);
    } else {
      SameUntilDivergence(base, items, |items|);
      assert items[..|items|] == items;
    }
  }

  /** In particular when no tool has a reserved name and no prefixed name is to be avoided. */
  lemma NamingsAgree(base: set<string>, items: seq<Item>)
    requires forall i :: i in items ==> !Reserved(i.tool.name) && Prefixed(i) !in base
    ensures NameAll(Connect, base, items) == NameAll(List, base, items)
  {
    NamingsAgreeIff(base, items);
  }

  /** A server that offers a reserved name: skipped at connection, admitted by a restart. */
  lemma ReservedNameDiverges(server: string, confirm: bool)
    ensures var items := [Item(server, confirm, RemoteTool("checkpoint", true))];
            NameAll(Connect, {}, items) == map[] &&
            NameAll(List, {}, items) == map["checkpoint" := Wrapper(server, "checkpoint", confirm)]
  {
    var items := [Item(server, confirm, RemoteTool("checkpoint", true))];
    assert items[..0] == [];
  }

  /** A list on which `connect_all` takes a built-in's name: the tool's own name and its prefixed one are both
      built-ins. */
  lemma BuiltinIsShadowed(server: string, name: string, confirm: bool)
    requires !Reserved(name)
    ensures var i := Item(server, confirm, RemoteTool(name, true));
            var builtin := {name, Prefixed(i)};
            Shadows(builtin, [i], 0) && NameAll(Connect, builtin, [i]) == map[Prefixed(i) := Wrap(i)] &&
            NameAll(List, builtin, [i]) == map[]
  {
    var i := Item(server, confirm, RemoteTool(name, true));
    assert [i][..0] == [];
  }
}
