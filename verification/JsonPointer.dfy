/** Local `$ref` resolution of JSON schemas (cogtrix_core/mcp_client.py), with the token escaping of
    RFC 6901: section 3 says how a key is written, section 4 how it is read back. */
module JsonPointer {
  import opened Options

  /** A decoded JSON value; `Atom` stands for numbers, booleans and null. */
  datatype Json =
    | Obj(fields: map<string, Json>)
    | Arr(items: seq<Json>)
    | Str(text: string)
    | Atom(id: int)

  datatype PyType = PyStr | PyInt | PyFloat | PyBool | PyList | PyDict | PyNone | Const(value: Json)

  /** `TypeError` is what looking up an unhashable value in a dict raises. */
  datatype Result<+T> = Ok(value: T) | TypeError

  // ---------------------------------------------------------------------------------------------
  // Text: replace, split, join
  // ---------------------------------------------------------------------------------------------

  /** `s.replace(ab, r)` for a two-character `ab`: leftmost, non-overlapping. */
  function Replace(s: string, a: char, b: char, r: char): string {
    if |s| < 2 then s
    else if s[0] == a && s[1] == b then [r] + Replace(s[2..], a, b, r)
    else [s[0]] + Replace(s[1..], a, b, r)
  }

  /** `part.replace("~1", "/").replace("~0", "~")`. */
  function Decode(token: string): string {
    Replace(Replace(token, '~', '1', '/'), '~', '0', '~')
  }

  /** The two replacements the other way round. */
  function DecodeTildeFirst(token: string): string {
    Replace(Replace(token, '~', '0', '~'), '~', '1', '/')
  }

  /** Section 3 of RFC 6901: `~` is written `~0` and `/` is written `~1`. */
  function Escape(key: string): (token: string)
    ensures '/' !in token
  {
    if key == "" then ""
    else (if key[0] == '~' then "~0" else if key[0] == '/' then "~1" else [key[0]]) + Escape(key[1..])
  }

  /** `s.split("/")`. */
  function Split(s: string): (parts: seq<string>)
    ensures |parts| >= 1
  {
    if s == "" then [""]
    else
      var rest := Split(s[1..]);
      if s[0] == '/' then [""] + rest else [[s[0]] + rest[0]] + rest[1..]
  }

  function JoinTokens(parts: seq<string>): string
    requires |parts| >= 1
  {
    if |parts| == 1 then parts[0] else parts[0] + "/" + JoinTokens(parts[1..])
  }

  /** The pointer text for a path of keys. */
  function Pointer(path: seq<string>): string
    requires |path| >= 1
  {
    "#/" + JoinTokens(EscapeAll(path))
  }

  function EscapeAll(path: seq<string>): (tokens: seq<string>)
    ensures |tokens| == |path|
    ensures forall i :: 0 <= i < |path| ==> tokens[i] == Escape(path[i])
  {
    seq(|path|, i requires 0 <= i < |path| => Escape(path[i]))
  }

  // ---------------------------------------------------------------------------------------------
  // Walking a schema
  // ---------------------------------------------------------------------------------------------

  /** Where a path of keys leads; `None` when a key is missing or a step meets a non-mapping. */
  function Follow(root: Json, path: seq<string>): Option<Json> {
    if path == [] then Some(root)
    else if root.Obj? && path[0] in root.fields then Follow(root.fields[path[0]], path[1..])
    else None
  }

  /** The nodes met on the way along a path: each is the named field of the one before. */
  ghost predicate Chain(nodes: seq<Json>, path: seq<string>) {
    |nodes| == |path| + 1 &&
    forall i :: 0 <= i < |path| ==> nodes[i].Obj? && path[i] in nodes[i].fields && nodes[i + 1] == nodes[i].fields[path[i]]
  }

  ghost predicate Leads(root: Json, path: seq<string>, target: Json) {
    exists nodes :: Chain(nodes, path) && nodes[0] == root && nodes[|path|] == target
  }

  /** A path leads to a node exactly when such a chain of fields does. */
  lemma {:induction false} FollowIsAChain(root: Json, path: seq<string>, target: Json)
    ensures Follow(root, path) == Some(target) <==> Leads(root, path, target)
  {
    if path == [] {
      assert Chain([root], path);
      forall nodes | Chain(nodes, path) && nodes[0] == root ensures nodes == [root] {}
    } else if root.Obj? && path[0] in root.fields {
      var next := root.fields[path[0]];
      FollowIsAChain(next, path[1..], target);
      if Leads(next, path[1..], target) {
        var nodes :| Chain(nodes, path[1..]) && nodes[0] == next && nodes[|path| - 1] == target;
        ChainGrows(root, nodes, path);
      }
      if Leads(root, path, target) {
        var nodes :| Chain(nodes, path) && nodes[0] == root && nodes[|path|] == target;
        ChainShrinks(nodes, path);
      }
    } else {
      assert forall nodes: seq<Json> :: Chain(nodes, path) ==> nodes[0].Obj? && path[0] in nodes[0].fields;
    }
  }

  lemma ChainGrows(root: Json, nodes: seq<Json>, path: seq<string>)
    requires path != [] && Chain(nodes, path[1..]) && root.Obj? && path[0] in root.fields && nodes[0] == root.fields[path[0]]
    ensures Chain([root] + nodes, path)
  {
  }

  lemma ChainShrinks(nodes: seq<Json>, path: seq<string>)
    requires path != [] && Chain(nodes, path)
    ensures Chain(nodes[1..], path[1..])
  {
  }

  predicate IsLocal(reference: string) { |reference| >= 2 && reference[..2] == "#/" }

  /** The walk of `_resolve_ref`: split the pointer, decode each token, descend. */
  method Walk(reference: string, root: Json) returns (target: Option<Json>)
    ensures target == if IsLocal(reference) then Follow(root, DecodeAll(Split(reference[2..]))) else None
  {
    if !IsLocal(reference) {
      return None;
    }
    var parts := Split(reference[2..]);
    var node := root;
    ghost var path := DecodeAll(parts);
    for i := 0 to |parts|
      invariant Follow(root, path) == Follow(node, path[i..])
    {
      var key := Decode(parts[i]);
      assert path[i..][0] == key && path[i..][1..] == path[i + 1..];
      if !node.Obj? || key !in node.fields {
        return None;
      }
      node := node.fields[key];
    }
    target := Some(node);
  }

  function DecodeAll(parts: seq<string>): (path: seq<string>)
    ensures |path| == |parts|
    ensures forall i :: 0 <= i < |path| ==> path[i] == Decode(parts[i])
  {
    seq(|parts|, i requires 0 <= i < |parts| => Decode(parts[i]))
  }

  /** `_JSON_SCHEMA_TYPE_MAP.get(name, str)`. */
  function TypeNamed(name: Json): Result<PyType> {
    match name
    case Obj(_) => TypeError
    case Arr(_) => TypeError
    case Atom(_) => Ok(PyStr)
    case Str(t) =>
      if t == "integer" then Ok(PyInt)
      else if t == "number" then Ok(PyFloat)
      else if t == "boolean" then Ok(PyBool)
      else if t == "array" then Ok(PyList)
      else if t == "object" then Ok(PyDict)
      else if t == "null" then Ok(PyNone)
      else Ok(PyStr)
  }

  function FirstNonNull(items: seq<Json>): Json {
    if items == [] then Str("string")
    else if items[0] != Str("null") then items[0]
    else FirstNonNull(items[1..])
  }

  /** The Python type of a schema node. */
  function NodeType(node: Json): Result<PyType> {
    if !node.Obj? then Ok(PyStr)
    else if "const" in node.fields then Ok(Const(node.fields["const"]))
    else if "type" !in node.fields then TypeNamed(Str("string"))
    else if node.fields["type"].Arr? then TypeNamed(FirstNonNull(node.fields["type"].items))
    else TypeNamed(node.fields["type"])
  }

  /** The types a schema can name, and `str` for any other name or for something that is no name. */
  lemma NamedTypes(name: string, other: Json)
    ensures TypeNamed(Str("string")) == Ok(PyStr) && TypeNamed(Str("integer")) == Ok(PyInt)
    ensures TypeNamed(Str("number")) == Ok(PyFloat) && TypeNamed(Str("boolean")) == Ok(PyBool)
    ensures TypeNamed(Str("array")) == Ok(PyList) && TypeNamed(Str("object")) == Ok(PyDict)
    ensures TypeNamed(Str("null")) == Ok(PyNone)
    ensures name !in {"integer", "number", "boolean", "array", "object", "null"} ==> TypeNamed(Str(name)) == Ok(PyStr)
    ensures TypeNamed(other).TypeError? <==> other.Obj? || other.Arr?
  {
  }

  /** Of a list of types the first that is not `null` counts; a list without one counts as `string`. */
  lemma {:induction false} FirstTypeCounts(items: seq<Json>, k: nat)
    requires k <= |items| && (forall i :: 0 <= i < k ==> items[i] == Str("null")) && (k < |items| ==> items[k] != Str("null"))
    ensures FirstNonNull(items) == if k < |items| then items[k] else Str("string")
  {
    if k > 0 { FirstTypeCounts(items[1..], k - 1); }
  }

  /** What decides the type of a node: a constant before anything else, else the one type it names, or the first of a
      list of types; `str` when it names none or is no mapping. */
  lemma NodeTypeIs(fields: map<string, Json>, name: string, items: seq<Json>, other: Json)
    ensures "const" in fields ==> NodeType(Obj(fields)) == Ok(Const(fields["const"]))
    ensures "const" !in fields && "type" !in fields ==> NodeType(Obj(fields)) == Ok(PyStr)
    ensures "const" !in fields && "type" in fields && fields["type"] == Str(name) ==> NodeType(Obj(fields)) == TypeNamed(Str(name))
    ensures "const" !in fields && "type" in fields && fields["type"] == Arr(items) ==>
              NodeType(Obj(fields)) == TypeNamed(FirstNonNull(items))
    ensures !other.Obj? ==> NodeType(other) == Ok(PyStr)
  {
  }

  /** `_resolve_ref`. */
  method ResolveRef(reference: string, root: Json) returns (r: Result<PyType>)
    ensures r ==
            if IsLocal(reference) && Follow(root, DecodeAll(Split(reference[2..]))).Some?
            then NodeType(Follow(root, DecodeAll(Split(reference[2..]))).value)
            else Ok(PyStr)
  {
    var target := Walk(reference, root);
    r := if target.None? then Ok(PyStr) else NodeType(target.value);
  }

  // ---------------------------------------------------------------------------------------------
  // Decoding undoes escaping
  // ---------------------------------------------------------------------------------------------

  /** A key with only its tildes escaped: what is left of a token after the first replacement. */
  function EscapeTildes(key: string): string {
    if key == "" then "" else (if key[0] == '~' then "~0" else [key[0]]) + EscapeTildes(key[1..])
  }

  lemma ReplaceHit(s: string, a: char, b: char, r: char)
    requires |s| >= 2 && s[0] == a && s[1] == b
    ensures Replace(s, a, b, r) == [r] + Replace(s[2..], a, b, r)
  {
  }

  lemma ReplaceMiss(s: string, a: char, b: char, r: char)
    requires |s| >= 1 && (s[0] != a || (|s| >= 2 && s[1] != b))
    ensures Replace(s, a, b, r) == [s[0]] + Replace(s[1..], a, b, r)
  {
    if |s| == 1 {
      assert s == [s[0]] + s[1..];
    }
  }

  /** An escaped character that is not the one looked for stays. */
  lemma EscapedPasses(c: char, t: string, b: char, r: char)
    requires c != b && c != '~'
    ensures Replace(['~', c] + t, '~', b, r) == ['~', c] + Replace(t, '~', b, r)
  {
    var s := ['~', c] + t;
    assert s[1..] == [c] + t && s[1..][1..] == t;
    ReplaceMiss(s, '~', b, r);
    ReplaceMiss(s[1..], '~', b, r);
  }

  lemma {:induction false} FirstPass(key: string)
    ensures Replace(Escape(key), '~', '1', '/') == EscapeTildes(key)
  {
    if key != "" {
      var t := Escape(key[1..]);
      FirstPass(key[1..]);
      if key[0] == '~' {
        EscapedPasses('0', t, '1', '/');
      } else if key[0] == '/' {
        assert Escape(key)[2..] == t;
        ReplaceHit(Escape(key), '~', '1', '/');
      } else {
        assert Escape(key)[1..] == t;
        ReplaceMiss(Escape(key), '~', '1', '/');
      }
    }
  }

  lemma {:induction false} SecondPass(key: string)
    ensures Replace(EscapeTildes(key), '~', '0', '~') == key
  {
    if key != "" {
      var t := EscapeTildes(key[1..]);
      SecondPass(key[1..]);
      assert key == [key[0]] + key[1..];
      if key[0] == '~' {
        assert EscapeTildes(key)[2..] == t;
        ReplaceHit(EscapeTildes(key), '~', '0', '~');
      } else {
        assert EscapeTildes(key)[1..] == t;
        ReplaceMiss(EscapeTildes(key), '~', '0', '~');
      }
    }
  }

  /** Reading a token gives back the key it was written from, for every key. */
  lemma DecodeEscape(key: string)
    ensures Decode(Escape(key)) == key
  {
    FirstPass(key);
    SecondPass(key);
  }

  /** A key with only its slashes escaped. */
  function EscapeSlashes(key: string): string {
    if key == "" then "" else (if key[0] == '/' then "~1" else [key[0]]) + EscapeSlashes(key[1..])
  }

  ghost predicate HasTildeOne(key: string) {
    exists i :: 0 <= i < |key| - 1 && key[i] == '~' && key[i + 1] == '1'
  }

  lemma {:induction false} TildeFirstPass(key: string)
    ensures Replace(Escape(key), '~', '0', '~') == EscapeSlashes(key)
  {
    if key != "" {
      var t := Escape(key[1..]);
      TildeFirstPass(key[1..]);
      if key[0] == '~' {
        assert Escape(key)[2..] == t;
        ReplaceHit(Escape(key), '~', '0', '~');
      } else if key[0] == '/' {
        EscapedPasses('1', t, '0', '~');
      } else {
        assert Escape(key)[1..] == t;
        ReplaceMiss(Escape(key), '~', '0', '~');
      }
    }
  }

  /** The second pass of the wrong order never lengthens what the key was, and shortens it exactly when
      the key itself held `~1`. */
  lemma {:induction false} TildeSecondPass(key: string)
    ensures var r := Replace(EscapeSlashes(key), '~', '1', '/');
            |r| <= |key| && (if HasTildeOne(key) then |r| < |key| else r == key)
    decreases |key|
  {
    if key != "" {
      var t := EscapeSlashes(key[1..]);
      var whole := EscapeSlashes(key);
      TildeSecondPass(key[1..]);
      assert key == [key[0]] + key[1..];
      if key[0] == '/' {
        assert whole[2..] == t;
        ReplaceHit(whole, '~', '1', '/');
        ShiftTildeOne(key);
      } else if key[0] == '~' && |key| > 1 && key[1] == '1' {
        var u := EscapeSlashes(key[2..]);
        TildeSecondPass(key[2..]);
        assert key[1..][1..] == key[2..];
        assert t == "1" + u && whole == "~" + t && whole[2..] == u;
        ReplaceHit(whole, '~', '1', '/');
        assert HasTildeOne(key);
      } else {
        assert whole[1..] == t;
        if key[0] == '~' && |key| == 1 {
          assert t == "" && whole == "~";
        } else {
          ReplaceMiss(whole, '~', '1', '/');
        }
        ShiftTildeOne(key);
      }
    }
  }

  lemma ShiftTildeOne(key: string)
    requires |key| >= 1 && !(key[0] == '~' && |key| > 1 && key[1] == '1')
    ensures HasTildeOne(key) <==> HasTildeOne(key[1..])
  {
    if HasTildeOne(key) {
      var i :| 0 <= i < |key| - 1 && key[i] == '~' && key[i + 1] == '1';
      assert key[1..][i - 1] == '~' && key[1..][i] == '1';
    }
    if HasTildeOne(key[1..]) {
      var i :| 0 <= i < |key[1..]| - 1 && key[1..][i] == '~' && key[1..][i + 1] == '1';
      assert key[i + 1] == '~' && key[i + 2] == '1';
    }
  }

  /** The order of the two replacements is essential: the other order reads back exactly the keys that
      do not hold `~1`. */
  lemma TildeFirstReadsBackIff(key: string)
    ensures DecodeTildeFirst(Escape(key)) == key <==> !HasTildeOne(key)
  {
    TildeFirstPass(key);
    TildeSecondPass(key);
  }

  // ---------------------------------------------------------------------------------------------
  // Splitting undoes joining
  // ---------------------------------------------------------------------------------------------

  lemma {:induction false} SplitToken(token: string)
    requires '/' !in token
    ensures Split(token) == [token]
  {
    if token != "" {
      SplitToken(token[1..]);
      assert token == [token[0]] + token[1..];
    }
  }

  lemma {:induction false} SplitFirst(token: string, rest: string)
    requires '/' !in token
    ensures Split(token + "/" + rest) == [token] + Split(rest)
  {
    if token == "" {
      assert token + "/" + rest == "/" + rest;
      assert ("/" + rest)[1..] == rest;
    } else {
      SplitFirst(token[1..], rest);
      assert token == [token[0]] + token[1..];
      assert (token + "/" + rest)[1..] == token[1..] + "/" + rest;
    }
  }

  lemma {:induction false} SplitJoin(parts: seq<string>)
    requires |parts| >= 1 && forall i :: 0 <= i < |parts| ==> '/' !in parts[i]
    ensures Split(JoinTokens(parts)) == parts
  {
    if |parts| == 1 {
      SplitToken(parts[0]);
    } else {
      SplitJoin(parts[1..]);
      SplitFirst(parts[0], JoinTokens(parts[1..]));
      assert parts == [parts[0]] + parts[1..];
    }
  }

  /** Round trip: the pointer written for a path is read back as that path, so it resolves to exactly the
      node the path leads to, in every document and for every non-empty path of keys. */
  lemma PointerRoundTrip(path: seq<string>, root: Json)
    requires |path| >= 1
    ensures IsLocal(Pointer(path))
    ensures DecodeAll(Split(Pointer(path)[2..])) == path
    ensures Follow(root, DecodeAll(Split(Pointer(path)[2..]))) == Follow(root, path)
  {
    var tokens := EscapeAll(path);
    assert Pointer(path)[2..] == JoinTokens(tokens);
    SplitJoin(tokens);
    forall i | 0 <= i < |path| ensures Decode(tokens[i]) == path[i] {
      DecodeEscape(path[i]);
    }
    assert DecodeAll(tokens) == path;
  }
}
