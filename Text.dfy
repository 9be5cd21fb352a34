/** The string predicates and folds the view-model relies on. */
module Text {

  /** .NET's char.IsWhiteSpace: the Unicode space, line and paragraph separators,
      the control characters U+0009 to U+000D, and U+0085. */
  predicate IsWhiteSpace(c: char)
  {
    var n := c as int;
    || (0x09 <= n <= 0x0D)
    || n == 0x20
    || n == 0x85
    || n == 0xA0
    || n == 0x1680
    || (0x2000 <= n <= 0x200A)
    || n == 0x2028
    || n == 0x2029
    || n == 0x202F
    || n == 0x205F
    || n == 0x3000
  }

  /** string.IsNullOrWhiteSpace for a non-null string: every character is white space,
      so the empty string counts as blank. */
  predicate IsNullOrWhiteSpace(s: string)
  {
    forall i | 0 <= i < |s| :: IsWhiteSpace(s[i])
  }

  /** An independent statement of "non-blank": some character is not white space. */
  predicate HasText(s: string)
  {
    exists i | 0 <= i < |s| :: !IsWhiteSpace(s[i])
  }

  lemma HasTextIsNotBlank(s: string)
    ensures HasText(s) <==> !IsNullOrWhiteSpace(s)
  {
  }

  /** The text obtained by appending the fragments, first to last, to an empty string. */
  function Concat(fragments: seq<string>): string
  {
    if fragments == [] then ""
    else Concat(fragments[..|fragments| - 1]) + fragments[|fragments| - 1]
  }

  /** n copies of one notification name. */
  function Repeat(name: string, n: nat): (r: seq<string>)
    ensures |r| == n
    ensures forall i | 0 <= i < n :: r[i] == name
  {
    if n == 0 then [] else Repeat(name, n - 1) + [name]
  }

  lemma {:induction false} ConcatAppend(a: seq<string>, b: seq<string>)
    ensures Concat(a + b) == Concat(a) + Concat(b)
    decreases |b|
  {
    if b == [] {
      assert a + b == a;
    } else {
      var b' := b[..|b| - 1];
      assert (a + b)[..|a + b| - 1] == a + b';
      ConcatAppend(a, b');
    }
  }

  /** Appending the next fragment extends the text of the fragments before it. */
  lemma ConcatPrefixStep(fragments: seq<string>, i: nat)
    requires i < |fragments|
    ensures Concat(fragments[..i + 1]) == Concat(fragments[..i]) + fragments[i]
  {
    assert fragments[..i + 1][..i] == fragments[..i];
  }

  /** Fragment i sits in the concatenation right after fragments 0 to i - 1:
      the fragments appear whole and in order. */
  lemma {:induction false} ConcatFragmentAt(fragments: seq<string>, i: nat)
    requires i < |fragments|
    ensures |Concat(fragments[..i])| + |fragments[i]| <= |Concat(fragments)|
    ensures Concat(fragments)[|Concat(fragments[..i])|..|Concat(fragments[..i])| + |fragments[i]|] == fragments[i]
  {
    var before, rest := fragments[..i], fragments[i + 1..];
    assert fragments == before + [fragments[i]] + rest;
    ConcatAppend(before + [fragments[i]], rest);
    ConcatAppend(before, [fragments[i]]);
    assert Concat([fragments[i]]) == fragments[i] by {
      assert [fragments[i]][..0] == [];
    }
  }

  lemma {:induction false} BlankAppend(a: string, b: string)
    ensures IsNullOrWhiteSpace(a + b) <==> IsNullOrWhiteSpace(a) && IsNullOrWhiteSpace(b)
  {
    if IsNullOrWhiteSpace(a + b) {
      forall i | 0 <= i < |a| ensures IsWhiteSpace(a[i]) {
        assert (a + b)[i] == a[i];
      }
      forall i | 0 <= i < |b| ensures IsWhiteSpace(b[i]) {
        assert (a + b)[|a| + i] == b[i];
      }
    }
  }

  /** The concatenation is blank exactly when every fragment is. */
  lemma {:induction false} ConcatBlank(fragments: seq<string>)
    ensures IsNullOrWhiteSpace(Concat(fragments)) <==>
            forall i | 0 <= i < |fragments| :: IsNullOrWhiteSpace(fragments[i])
    decreases |fragments|
  {
    if fragments != [] {
      var init := fragments[..|fragments| - 1];
      ConcatBlank(init);
      BlankAppend(Concat(init), fragments[|fragments| - 1]);
      assert forall i | 0 <= i < |init| :: init[i] == fragments[i];
    }
  }
}
