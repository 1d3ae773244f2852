/**
 * `safe_render` (tools/setup_mission.py): the instruction documents of the
 * agents are rendered by literal, ordered, non-recursive placeholder
 * substitution. Each keyword argument `key=value` replaces every `{key}` with
 * `value` using `str.replace`, in argument order, on the text left by the
 * previous keyword; a placeholder whose key is not passed is left verbatim.
 */
module Templates {
  import opened Text

  /** One keyword argument of `safe_render`. */
  datatype Binding = Bind(key: string, value: string)

  /** The placeholder text `{key}`. */
  function Placeholder(key: string): (p: string)
    ensures |p| == |key| + 2 && p[0] == '{' && p[|p| - 1] == '}' && p[1..|p| - 1] == key
  {
    "{" + key + "}"
  }

  /**
   * The text after the substitutions of `binds`, in order: the last binding's
   * placeholder is replaced in the text the earlier bindings produced.
   */
  function Render(template: string, binds: seq<Binding>): string
    decreases |binds|
  {
    if binds == [] then template
    else
      var last := binds[|binds| - 1];
      Replace(Render(template, binds[..|binds| - 1]), Placeholder(last.key), last.value)
  }

  /** The loop of `safe_render`: `result` is reassigned once per keyword. */
  method SafeRender(template: string, binds: seq<Binding>) returns (result: string)
    ensures result == Render(template, binds)
  {
    result := template;
    for i := 0 to |binds|
      invariant result == Render(template, binds[..i])
    {
      assert binds[..i + 1][..i] == binds[..i];
      result := Replace(result, Placeholder(binds[i].key), binds[i].value);
    }
    assert binds[..|binds|] == binds;
  }

  /** A template holding none of the passed placeholders comes back unchanged. */
  lemma {:induction false} RenderUntouched(template: string, binds: seq<Binding>)
    requires forall i :: 0 <= i < |binds| ==> !Contains(template, Placeholder(binds[i].key))
    ensures Render(template, binds) == template
    decreases |binds|
  {
    if binds != [] {
      var init := binds[..|binds| - 1];
      assert forall i :: 0 <= i < |init| ==> init[i] == binds[i];
      RenderUntouched(template, init);
      ReplaceAbsent(template, Placeholder(binds[|binds| - 1].key), binds[|binds| - 1].value);
    }
  }

  /** Substitution is not recursive: a value that is itself a placeholder stays. */
  lemma ValuesAreNotRescanned()
    ensures Render("{goal}", [Bind("project", "P"), Bind("goal", "{project}")]) == "{project}"
  {
    var b := [Bind("project", "P"), Bind("goal", "{project}")];
    assert b[..1] == [Bind("project", "P")];
    assert b[..1][..0] == [];
    assert Render("{goal}", []) == "{goal}";
    assert |Placeholder("project")| == 9;
    assert Replace("{goal}", Placeholder("project"), "P") == "{goal}";
    assert Render("{goal}", b[..1]) == "{goal}";
    assert "{goal}"[..6] == "{goal}";
    assert "{goal}"[6..] == [];
  }

  /**
   * Without a restriction on the template the rendered text may still hold a
   * placeholder of a passed key, even though no value holds one: braces of
   * the template around `{a}` meet the value.
   */
  lemma TemplateBracesCanFormPlaceholders()
    ensures Render("{{a}}", [Bind("a", "a")]) == "{a}"
  {
    var s := "{{a}}";
    assert [Bind("a", "a")][..0] == [];
    assert s[..3][1] == '{' && "{a}"[1] == 'a';
    assert s[1..] == "{a}}";
    assert s[1..][..3] == "{a}";
    assert s[1..][3..] == "}";
  }

  // ---------------------------------------------------------------------------
  // Templates whose braces only delimit placeholders
  // ---------------------------------------------------------------------------

  /** A template seen as literal text and `{name}` placeholders. */
  datatype Piece = Lit(text: string) | Slot(name: string)

  /** No character of `s` is a brace. */
  predicate BraceFree(s: string) {
    forall i | 0 <= i < |s| :: s[i] != '{' && s[i] != '}'
  }

  lemma BraceFreeChars(s: string)
    ensures BraceFree(s) <==> '{' !in s && '}' !in s
  {
  }

  lemma BraceFreeJoin(a: string, b: string)
    requires BraceFree(a) && BraceFree(b)
    ensures BraceFree(a + b)
  {
    assert forall i | |a| <= i < |a + b| :: (a + b)[i] == b[i - |a|];
  }

  predicate PieceOk(p: Piece) {
    match p
    case Lit(t) => BraceFree(t)
    case Slot(k) => BraceFree(k)
  }

  /** Braces occur only as the delimiters of placeholders. */
  predicate WellFormed(ps: seq<Piece>) {
    forall i :: 0 <= i < |ps| ==> PieceOk(ps[i])
  }

  function Show(p: Piece): string {
    match p
    case Lit(t) => t
    case Slot(k) => Placeholder(k)
  }

  function Flatten(ps: seq<Piece>): string
    decreases |ps|
  {
    if ps == [] then [] else Show(ps[0]) + Flatten(ps[1..])
  }

  /** Every slot named `key` is replaced by the pieces `vs`. */
  function Instantiate(ps: seq<Piece>, key: string, vs: seq<Piece>): seq<Piece>
    decreases |ps|
  {
    if ps == [] then []
    else (if ps[0] == Slot(key) then vs else [ps[0]]) + Instantiate(ps[1..], key, vs)
  }

  /** A keyword argument whose value is given as pieces. */
  datatype Fill = Fill(key: string, pieces: seq<Piece>)

  function AsBindings(fills: seq<Fill>): (r: seq<Binding>)
    ensures |r| == |fills|
    ensures forall i :: 0 <= i < |fills| ==> r[i] == Bind(fills[i].key, Flatten(fills[i].pieces))
    decreases |fills|
  {
    if fills == [] then []
    else AsBindings(fills[..|fills| - 1]) + [Bind(fills[|fills| - 1].key, Flatten(fills[|fills| - 1].pieces))]
  }

  function InstantiateAll(ps: seq<Piece>, fills: seq<Fill>): seq<Piece>
    decreases |fills|
  {
    if fills == [] then ps
    else
      var last := fills[|fills| - 1];
      Instantiate(InstantiateAll(ps, fills[..|fills| - 1]), last.key, last.pieces)
  }

  function Keys(fills: seq<Fill>): (r: seq<string>)
    ensures |r| == |fills| && forall i :: 0 <= i < |fills| ==> r[i] == fills[i].key
    decreases |fills|
  {
    if fills == [] then [] else [fills[0].key] + Keys(fills[1..])
  }

  /** The fills are well formed and no value names its own key or an earlier one. */
  predicate ForwardFills(fills: seq<Fill>) {
    && (forall i :: 0 <= i < |fills| ==> BraceFree(fills[i].key) && WellFormed(fills[i].pieces))
    && (forall i, j :: 0 <= j <= i < |fills| ==> Slot(fills[j].key) !in fills[i].pieces)
  }

  lemma {:induction false} FlattenAppend(xs: seq<Piece>, ys: seq<Piece>)
    ensures Flatten(xs + ys) == Flatten(xs) + Flatten(ys)
    decreases |xs|
  {
    if xs != [] {
      assert (xs + ys)[1..] == xs[1..] + ys;
      FlattenAppend(xs[1..], ys);
    } else {
      assert xs + ys == ys;
    }
  }

  lemma BraceFreeAt(x: string)
    requires BraceFree(x)
    ensures forall j :: 0 <= j < |x| ==> x[j] != '{' && x[j] != '}'
  {
    assert forall j :: 0 <= j < |x| ==> x[j] in x;
  }

  lemma PlaceholderAt(k: string)
    ensures forall j :: 1 <= j <= |k| ==> Placeholder(k)[j] == k[j - 1]
  {
  }

  /** In a well-formed piece, an opening brace can only be the first character of a slot. */
  lemma OpeningBraceOfPiece(p: Piece)
    requires PieceOk(p)
    ensures forall j :: 0 <= j < |Show(p)| && Show(p)[j] == '{' ==> j == 0 && p.Slot?
  {
    match p
    case Lit(t) =>
      BraceFreeAt(t);
    case Slot(x) =>
      BraceFreeAt(x);
      PlaceholderAt(x);
  }

  /** An occurrence of a placeholder that starts inside a piece is that piece. */
  lemma PieceOccurrence(p: Piece, rest: string, k: string, i: int)
    requires PieceOk(p) && BraceFree(k)
    requires IsAt(Show(p) + rest, Placeholder(k), i) && i < |Show(p)|
    ensures i == 0 && p == Slot(k)
  {
    var s := Show(p) + rest;
    var pk := Placeholder(k);
    assert s[i] == pk[0] by {
      assert s[i..i + |pk|][0] == s[i];
    }
    assert Show(p)[i] == '{';
    OpeningBraceOfPiece(p);
    var x := p.name;
    var px := Placeholder(x);
    BraceFreeAt(x);
    BraceFreeAt(k);
    PlaceholderAt(x);
    PlaceholderAt(k);
    assert forall j :: 0 <= j < |pk| ==> s[j] == pk[j];
    assert s[|k| + 1] == pk[|k| + 1];
    assert s[|x| + 1] == px[|x| + 1];
    assert |k| == |x|;
    assert pk == s[..|pk|] == px;
  }

  /** Replacing a placeholder in one piece. */
  lemma ReplacePiece(p: Piece, k: string, v: string)
    requires PieceOk(p) && BraceFree(k)
    ensures Replace(Show(p), Placeholder(k), v) == if p == Slot(k) then v else Show(p)
  {
    var pk := Placeholder(k);
    if p == Slot(k) {
      assert Show(p)[..|pk|] == pk;
      assert Show(p)[|pk|..] == [];
      assert v + [] == v;
    } else {
      forall i | 0 <= i <= |Show(p)|
        ensures !IsAt(Show(p), pk, i)
      {
        assert Show(p) + [] == Show(p);
        if IsAt(Show(p), pk, i) {
          PieceOccurrence(p, [], k, i);
        }
      }
      ReplaceAbsent(Show(p), pk, v);
    }
  }

  /** One `str.replace` on a well-formed template instantiates its slots. */
  lemma {:induction false} ReplaceFlatten(ps: seq<Piece>, k: string, vs: seq<Piece>)
    requires WellFormed(ps) && BraceFree(k)
    ensures Replace(Flatten(ps), Placeholder(k), Flatten(vs)) == Flatten(Instantiate(ps, k, vs))
    decreases |ps|
  {
    var pk := Placeholder(k);
    if ps != [] {
      var p, rest := ps[0], ps[1..];
      assert PieceOk(p);
      assert WellFormed(rest) by {
        forall i | 0 <= i < |rest| ensures PieceOk(rest[i]) { assert rest[i] == ps[i + 1]; }
      }
      forall i | |Show(p)| - |pk| < i < |Show(p)|
        ensures !IsAt(Show(p) + Flatten(rest), pk, i)
      {
        if IsAt(Show(p) + Flatten(rest), pk, i) {
          PieceOccurrence(p, Flatten(rest), k, i);
        }
      }
      ReplaceConcat(Show(p), Flatten(rest), pk, Flatten(vs));
      ReplacePiece(p, k, Flatten(vs));
      ReplaceFlatten(rest, k, vs);
      var head := if p == Slot(k) then vs else [p];
      FlattenAppend(head, Instantiate(rest, k, vs));
      assert Flatten([p]) == Show(p) + [];
    }
  }

  lemma {:induction false} InstantiateWellFormed(ps: seq<Piece>, k: string, vs: seq<Piece>)
    requires WellFormed(ps) && WellFormed(vs)
    ensures WellFormed(Instantiate(ps, k, vs))
    decreases |ps|
  {
    if ps != [] {
      assert WellFormed(ps[1..]) by {
        forall i | 0 <= i < |ps[1..]| ensures PieceOk(ps[1..][i]) { assert ps[1..][i] == ps[i + 1]; }
      }
      InstantiateWellFormed(ps[1..], k, vs);
      assert PieceOk(ps[0]);
    }
  }

  /** The slots left after one instantiation. */
  lemma {:induction false} InstantiateSlots(ps: seq<Piece>, k: string, vs: seq<Piece>, x: string)
    ensures Slot(x) in Instantiate(ps, k, vs) <==>
            (x != k && Slot(x) in ps) || (Slot(k) in ps && Slot(x) in vs)
    decreases |ps|
  {
    if ps != [] {
      InstantiateSlots(ps[1..], k, vs, x);
      assert ps == [ps[0]] + ps[1..];
    }
  }

  lemma WellFormedTail(ps: seq<Piece>)
    requires ps != [] && WellFormed(ps)
    ensures PieceOk(ps[0]) && WellFormed(ps[1..])
  {
    assert PieceOk(ps[0]);
    forall i | 0 <= i < |ps[1..]| ensures PieceOk(ps[1..][i]) { assert ps[1..][i] == ps[i + 1]; }
  }

  /** An occurrence in the tail is an occurrence in the whole. */
  lemma ContainsAfter(a: string, rest: string, pat: string)
    requires Contains(rest, pat)
    ensures Contains(a + rest, pat)
  {
    var j :| 0 <= j <= |rest| && IsAt(rest, pat, j);
    assert (a + rest)[j + |a|..j + |a| + |pat|] == rest[j..j + |pat|];
    assert IsAt(a + rest, pat, j + |a|);
  }

  /** A slot `x` shows up as `{x}` in the text. */
  lemma {:induction false} SlotShows(ps: seq<Piece>, x: string)
    requires Slot(x) in ps
    ensures Contains(Flatten(ps), Placeholder(x))
    decreases |ps|
  {
    var px := Placeholder(x);
    var s := Show(ps[0]) + Flatten(ps[1..]);
    if ps[0] == Slot(x) {
      assert s[..|px|] == px;
      assert IsAt(s, px, 0);
    } else {
      assert ps == [ps[0]] + ps[1..];
      SlotShows(ps[1..], x);
      ContainsAfter(Show(ps[0]), Flatten(ps[1..]), px);
    }
  }

  /** An occurrence past the end of `a` is an occurrence in the tail. */
  lemma IsAtAfter(a: string, rest: string, pat: string, i: int)
    requires IsAt(a + rest, pat, i) && i >= |a|
    ensures IsAt(rest, pat, i - |a|)
  {
    assert rest[i - |a|..i - |a| + |pat|] == (a + rest)[i..i + |pat|];
  }

  /** `{x}` cannot start inside a piece other than the slot `x`, nor show up later when the rest lacks it. */
  lemma NotInJoin(p: Piece, rest: string, x: string)
    requires PieceOk(p) && BraceFree(x) && p != Slot(x) && !Contains(rest, Placeholder(x))
    ensures !Contains(Show(p) + rest, Placeholder(x))
  {
    var px := Placeholder(x);
    var s := Show(p) + rest;
    forall i | 0 <= i <= |s|
      ensures !IsAt(s, px, i)
    {
      if IsAt(s, px, i) {
        if i < |Show(p)| {
          PieceOccurrence(p, rest, x, i);
        } else {
          IsAtAfter(Show(p), rest, px, i);
        }
      }
    }
  }

  /** In a well-formed text, `{x}` occurs only where there is a slot `x`. */
  lemma {:induction false} OnlySlotsShow(ps: seq<Piece>, x: string)
    requires WellFormed(ps) && BraceFree(x) && Slot(x) !in ps
    ensures !Contains(Flatten(ps), Placeholder(x))
    decreases |ps|
  {
    if ps != [] {
      assert ps == [ps[0]] + ps[1..];
      WellFormedTail(ps);
      OnlySlotsShow(ps[1..], x);
      NotInJoin(ps[0], Flatten(ps[1..]), x);
    }
  }

  /** In a well-formed text, `{x}` occurs exactly where there is a slot `x`. */
  lemma FlattenContains(ps: seq<Piece>, x: string)
    requires WellFormed(ps) && BraceFree(x)
    ensures Contains(Flatten(ps), Placeholder(x)) <==> Slot(x) in ps
  {
    if Slot(x) in ps {
      SlotShows(ps, x);
    } else {
      OnlySlotsShow(ps, x);
    }
  }

  /**
   * Rendering a well-formed template with well-formed values is instantiating
   * its slots, one keyword after the other.
   */
  lemma {:induction false} RenderFlatten(ps: seq<Piece>, fills: seq<Fill>)
    requires WellFormed(ps)
    requires forall i :: 0 <= i < |fills| ==> BraceFree(fills[i].key) && WellFormed(fills[i].pieces)
    ensures Render(Flatten(ps), AsBindings(fills)) == Flatten(InstantiateAll(ps, fills))
    ensures WellFormed(InstantiateAll(ps, fills))
    decreases |fills|
  {
    if fills != [] {
      var init, last := fills[..|fills| - 1], fills[|fills| - 1];
      assert forall i :: 0 <= i < |init| ==> init[i] == fills[i];
      RenderFlatten(ps, init);
      assert AsBindings(fills)[..|fills| - 1] == AsBindings(init);
      ReplaceFlatten(InstantiateAll(ps, init), last.key, last.pieces);
      InstantiateWellFormed(InstantiateAll(ps, init), last.key, last.pieces);
    }
  }

  /** The fills of a forward list but the last are forward too. */
  lemma ForwardInit(fills: seq<Fill>)
    requires fills != [] && ForwardFills(fills)
    ensures ForwardFills(fills[..|fills| - 1])
  {
    var init := fills[..|fills| - 1];
    assert forall i :: 0 <= i < |init| ==> init[i] == fills[i];
  }

  /** After all fills of a forward list, no slot of a passed key is left. */
  lemma {:induction false} NoPassedSlots(ps: seq<Piece>, fills: seq<Fill>)
    requires ForwardFills(fills)
    ensures forall i :: 0 <= i < |fills| ==> Slot(fills[i].key) !in InstantiateAll(ps, fills)
    decreases |fills|
  {
    if fills != [] {
      var init := fills[..|fills| - 1];
      var k, vs := fills[|fills| - 1].key, fills[|fills| - 1].pieces;
      ForwardInit(fills);
      NoPassedSlots(ps, init);
      var prev := InstantiateAll(ps, init);
      assert InstantiateAll(ps, fills) == Instantiate(prev, k, vs);
      forall i | 0 <= i < |fills|
        ensures Slot(fills[i].key) !in Instantiate(prev, k, vs)
      {
        InstantiateSlots(prev, k, vs, fills[i].key);
        assert Slot(fills[i].key) !in vs;
        if i < |init| {
          assert init[i] == fills[i];
        }
      }
    }
  }

  /**
   * No leftover placeholders: when the template's braces only delimit
   * placeholders and no value holds a placeholder for its own key or an
   * earlier one, the rendered text holds no placeholder of any passed key.
   * Placeholders inside a value for LATER keys are rendered too.
   */
  lemma RenderLeavesNoPassedPlaceholder(template: string, ps: seq<Piece>, fills: seq<Fill>)
    requires template == Flatten(ps) && WellFormed(ps) && ForwardFills(fills)
    ensures forall i :: 0 <= i < |fills| ==>
              !Contains(Render(template, AsBindings(fills)), Placeholder(fills[i].key))
  {
    RenderFlatten(ps, fills);
    NoPassedSlots(ps, fills);
    forall i | 0 <= i < |fills|
      ensures !Contains(Render(template, AsBindings(fills)), Placeholder(fills[i].key))
    {
      FlattenContains(InstantiateAll(ps, fills), fills[i].key);
    }
  }

  /**
   * The plain case: values without braces leave no placeholder of a passed
   * key in a template whose braces only delimit placeholders.
   */
  lemma RenderBraceFreeValues(template: string, ps: seq<Piece>, binds: seq<Binding>)
    requires template == Flatten(ps) && WellFormed(ps)
    requires forall i :: 0 <= i < |binds| ==> BraceFree(binds[i].key) && BraceFree(binds[i].value)
    ensures forall i :: 0 <= i < |binds| ==> !Contains(Render(template, binds), Placeholder(binds[i].key))
  {
    var fills := seq(|binds|, i requires 0 <= i < |binds| => Fill(binds[i].key, [Lit(binds[i].value)]));
    forall i | 0 <= i < |binds| ensures AsBindings(fills)[i] == binds[i] {
      assert Flatten([Lit(binds[i].value)]) == binds[i].value + [];
    }
    assert AsBindings(fills) == binds;
    assert ForwardFills(fills) by {
      forall i | 0 <= i < |fills| ensures WellFormed(fills[i].pieces) {
        assert PieceOk(fills[i].pieces[0]);
      }
    }
    RenderLeavesNoPassedPlaceholder(template, ps, fills);
  }

  /** Two placeholders of brace-free keys that start at the same index have the same key. */
  lemma SameStart(s: string, k: string, x: string, i: int)
    requires BraceFree(k) && BraceFree(x)
    ensures IsAt(s, Placeholder(k), i) && IsAt(s, Placeholder(x), i) ==> k == x
  {
    var pk, px := Placeholder(k), Placeholder(x);
    if IsAt(s, pk, i) && IsAt(s, px, i) {
      BraceFreeAt(k);
      BraceFreeAt(x);
      PlaceholderAt(k);
      PlaceholderAt(x);
      assert forall j :: 0 <= j < |pk| ==> s[i + j] == s[i..i + |pk|][j] == pk[j];
      assert forall j :: 0 <= j < |px| ==> s[i + j] == s[i..i + |px|][j] == px[j];
      var m := if |k| < |x| then |k| + 1 else |x| + 1;
      assert pk[m] == s[i + m] == px[m];
      assert k == pk[1..|pk| - 1] == s[i + 1..i + 1 + |k|] == px[1..|px| - 1] == x;
    }
  }

  /** Where `{x}` starts, no `{k}` of another brace-free key starts inside it. */
  lemma NoOtherInside(s: string, k: string, x: string)
    requires BraceFree(k) && BraceFree(x) && k != x && IsAt(s, Placeholder(x), 0)
    ensures forall j :: 0 <= j < |Placeholder(x)| ==> !IsAt(s, Placeholder(k), j)
  {
    var pk, px := Placeholder(k), Placeholder(x);
    BraceFreeAt(x);
    PlaceholderAt(x);
    SameStart(s, k, x, 0);
    forall j | 0 < j < |px|
      ensures !IsAt(s, pk, j)
    {
      assert s[j] == s[..|px|][j] == px[j];
      if j + |pk| <= |s| {
        assert s[j..j + |pk|][0] == s[j];
      }
    }
  }

  /** Where `{k}` starts, `{x}` of another brace-free key can only start after it. */
  lemma OtherAfter(s: string, k: string, x: string, i: int)
    requires BraceFree(k) && BraceFree(x) && k != x
    requires IsAt(s, Placeholder(k), 0) && IsAt(s, Placeholder(x), i)
    ensures i >= |Placeholder(k)|
  {
    var pk, px := Placeholder(k), Placeholder(x);
    BraceFreeAt(k);
    PlaceholderAt(k);
    SameStart(s, k, x, 0);
    assert s[i] == '{' by {
      assert s[i..i + |px|][0] == s[i];
    }
    assert forall j :: 0 < j < |pk| ==> s[j] == s[..|pk|][j] != '{';
  }

  /**
   * Replacing `{k}` keeps every occurrence of `{x}` for another brace-free
   * key: the two placeholders cannot overlap.
   */
  lemma {:induction false} ReplaceKeepsOther(s: string, k: string, v: string, x: string, i: int)
    requires BraceFree(k) && BraceFree(x) && k != x && IsAt(s, Placeholder(x), i)
    ensures Contains(Replace(s, Placeholder(k), v), Placeholder(x))
    decreases |s|
  {
    var pk, px := Placeholder(k), Placeholder(x);
    if |s| < |pk| {
    } else if s[..|pk|] == pk {
      OtherAfter(s, k, x, i);
      var rest := s[|pk|..];
      assert rest[i - |pk|..i - |pk| + |px|] == s[i..i + |px|];
      ReplaceKeepsOther(rest, k, v, x, i - |pk|);
      ContainsAfter(v, Replace(rest, pk, v), px);
    } else if i > 0 {
      assert s[1..][i - 1..i - 1 + |px|] == s[i..i + |px|];
      ReplaceKeepsOther(s[1..], k, v, x, i - 1);
      ContainsAfter([s[0]], Replace(s[1..], pk, v), px);
    } else {
      NoOtherInside(s, k, x);
      ReplaceSplit(s, pk, v, |px|);
      var r := Replace(s, pk, v);
      assert r[..|px|] == s[..|px|];
      assert IsAt(r, px, 0);
    }
  }

  /**
   * A placeholder of a brace-free key that is not passed is left verbatim,
   * whatever the template and the values hold.
   */
  lemma {:induction false} RenderKeepsUnpassedPlaceholders(template: string, binds: seq<Binding>, x: string)
    requires BraceFree(x) && Contains(template, Placeholder(x))
    requires forall b | b in binds :: BraceFree(b.key) && b.key != x
    ensures Contains(Render(template, binds), Placeholder(x))
    decreases |binds|
  {
    if binds != [] {
      var init := binds[..|binds| - 1];
      var last := binds[|binds| - 1];
      assert forall b | b in init :: b in binds;
      RenderKeepsUnpassedPlaceholders(template, init, x);
      var before := Render(template, init);
      var i :| 0 <= i <= |before| && IsAt(before, Placeholder(x), i);
      assert last in binds;
      ReplaceKeepsOther(before, last.key, last.value, x, i);
    }
  }
}
