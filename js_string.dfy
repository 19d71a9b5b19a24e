/** The JavaScript string primitives the prediction handler relies on: the white-space class
    shared by the regular-expression escape `\s` and `String.prototype.trim`, the sentence
    terminators of the pattern `/[.!?]+/`, `trim`, and `String.prototype.split` called with a
    pattern that matches one or more consecutive separator characters. */
module JsString {

  /** The white-space code points of ECMA-262 (its WhiteSpace and LineTerminator productions):
      tab, line feed, vertical tab, form feed, carriage return, space, no-break space, the
      Unicode space separators, line and paragraph separator, and the byte-order mark. The
      proofs use nothing about this set except that no sentence terminator belongs to it. */
  const SpaceChars: set<char> := {
    '\t', '\n', '\U{B}', '\U{C}', '\r', ' ', '\U{A0}', '\U{1680}',
    '\U{2000}', '\U{2001}', '\U{2002}', '\U{2003}', '\U{2004}', '\U{2005}', '\U{2006}',
    '\U{2007}', '\U{2008}', '\U{2009}', '\U{200A}',
    '\U{2028}', '\U{2029}', '\U{202F}', '\U{205F}', '\U{3000}', '\U{FEFF}'
  }

  /** The characters of the sentence pattern `/[.!?]+/`. */
  const TerminatorChars: set<char> := {'.', '!', '?'}

  predicate IsSpace(c: char) { c in SpaceChars }

  predicate IsTerminator(c: char) { c in TerminatorChars }

  /** A class of characters: those in a set, or those outside it. */
  datatype CharClass = Among(chars: set<char>) | Outside(chars: set<char>)

  predicate In(c: char, k: CharClass) {
    match k
    case Among(chars) => c in chars
    case Outside(chars) => c !in chars
  }

  const Space: CharClass := Among(SpaceChars)
  const NonSpace: CharClass := Outside(SpaceChars)
  const Terminator: CharClass := Among(TerminatorChars)
  const NonTerminator: CharClass := Outside(TerminatorChars)

  lemma TerminatorIsNotSpace(c: char)
    ensures IsTerminator(c) ==> !IsSpace(c)
  {
  }

  /** Every character of `s` satisfies `p`. */
  predicate All(s: string, p: CharClass) {
    forall i :: 0 <= i < |s| ==> In(s[i], p)
  }

  /** No character of `s` satisfies `p`. */
  predicate NoneOf(s: string, p: CharClass) {
    forall i :: 0 <= i < |s| ==> !In(s[i], p)
  }

  lemma NoneOfAppend(a: string, b: string, p: CharClass)
    ensures NoneOf(a + b, p) <==> NoneOf(a, p) && NoneOf(b, p)
  {
    if NoneOf(a + b, p) {
      forall i | 0 <= i < |a| ensures !In(a[i], p) { assert a[i] == (a + b)[i]; }
      forall i | 0 <= i < |b| ensures !In(b[i], p) { assert b[i] == (a + b)[i + |a|]; }
    }
    if NoneOf(a, p) && NoneOf(b, p) {
      forall i | 0 <= i < |a + b| ensures !In((a + b)[i], p) {
        if i >= |a| { assert (a + b)[i] == b[i - |a|]; }
      }
    }
  }

  /** `s` with every character satisfying `p` removed, the others kept in order. */
  function Without(s: string, p: CharClass): (r: string)
    ensures |r| <= |s|
    ensures NoneOf(r, p)
  {
    if s == [] then [] else (if In(s[0], p) then [] else [s[0]]) + Without(s[1..], p)
  }

  lemma {:induction false} WithoutAppend(a: string, b: string, p: CharClass)
    ensures Without(a + b, p) == Without(a, p) + Without(b, p)
  {
    if a == [] {
      assert a + b == b;
    } else {
      assert a + b == [a[0]] + (a[1..] + b);
      WithoutCons(a[0], a[1..] + b, p);
      WithoutCons(a[0], a[1..], p);
      assert a == [a[0]] + a[1..];
      WithoutAppend(a[1..], b, p);
      AppendAssoc(if In(a[0], p) then [] else [a[0]], Without(a[1..], p), Without(b, p));
    }
  }

  lemma AppendAssoc(x: string, y: string, z: string)
    ensures x + (y + z) == (x + y) + z
  {
  }

  lemma WithoutCons(c: char, s: string, p: CharClass)
    ensures Without([c] + s, p) == (if In(c, p) then [] else [c]) + Without(s, p)
  {
    assert ([c] + s)[1..] == s;
  }

  /** Having no character of a class is having every character outside it, and vice versa. */
  lemma Complement(s: string, chars: set<char>)
    ensures NoneOf(s, Among(chars)) <==> All(s, Outside(chars))
    ensures All(s, Among(chars)) <==> NoneOf(s, Outside(chars))
  {
  }

  /** Length of the longest prefix of `s` whose characters all satisfy `p`. */
  function Span(s: string, p: CharClass): (k: nat)
    ensures k <= |s|
    ensures forall i :: 0 <= i < k ==> In(s[i], p)
    ensures k < |s| ==> !In(s[k], p)
  {
    if s == [] || !In(s[0], p) then 0 else 1 + Span(s[1..], p)
  }

  /** Length of the longest prefix of `s` none of whose characters satisfies `p`. */
  function SpanNot(s: string, p: CharClass): (k: nat)
    ensures k <= |s|
    ensures forall i :: 0 <= i < k ==> !In(s[i], p)
    ensures k < |s| ==> In(s[k], p)
  {
    if s == [] || In(s[0], p) then 0 else 1 + SpanNot(s[1..], p)
  }

  /** `s.split(re)` where `re` matches one or more consecutive characters satisfying `sep`
      (`/\s+/`, `/[.!?]+/`): the pieces of `s` between its maximal separator runs, in order,
      with an empty first piece when `s` begins with a separator and an empty last piece when
      it ends with one (and the single piece `""` for the empty string). */
  function Split(s: string, sep: CharClass): (pieces: seq<string>)
    ensures |pieces| >= 1
    ensures forall k :: 0 <= k < |pieces| ==> NoneOf(pieces[k], sep)
    decreases |s|
  {
    var k := SpanNot(s, sep);
    if k == |s| then
      assert s[..k] == s;
      [s]
    else
      var gap := Span(s[k..], sep);
      assert gap > 0;
      [s[..k]] + Split(s[k + gap..], sep)
  }

  /** One step of `Split` on a string that holds a separator: the first piece, the separator run
      after it, and the rest of the string, which is split in turn. */
  lemma SplitStep(s: string, sep: CharClass) returns (piece: string, run: string, rest: string)
    requires !NoneOf(s, sep)
    ensures s == piece + (run + rest)
    ensures NoneOf(piece, sep) && run != [] && All(run, sep)
    ensures rest == [] || !In(rest[0], sep)
    ensures Split(s, sep) == [piece] + Split(rest, sep)
  {
    // Locals for the two spans would be separate terms to the solver; the calls below name
    // the spans exactly as the helper lemmas state them.
    SplitUnfold(s, sep);
    SpanNotPrefix(s, sep);
    SpanAt(s, SpanNot(s, sep), sep);
    Decompose(s, SpanNot(s, sep), SpanNot(s, sep) + Span(s[SpanNot(s, sep)..], sep));
    piece := s[..SpanNot(s, sep)];
    run := s[SpanNot(s, sep)..SpanNot(s, sep) + Span(s[SpanNot(s, sep)..], sep)];
    rest := s[SpanNot(s, sep) + Span(s[SpanNot(s, sep)..], sep)..];
  }

  /** One unfolding of `Split` when `s` holds a separator. */
  lemma SplitUnfold(s: string, sep: CharClass)
    requires SpanNot(s, sep) < |s|
    ensures var k := SpanNot(s, sep);
      Split(s, sep) == [s[..k]] + Split(s[k + Span(s[k..], sep)..], sep)
  {
  }

  lemma SpanNotPrefix(s: string, p: CharClass)
    ensures SpanNot(s, p) <= |s| && NoneOf(s[..SpanNot(s, p)], p)
  {
  }

  /** The run of `p` characters that starts at position `k` of `s`. */
  lemma SpanAt(s: string, k: nat, p: CharClass)
    requires k <= |s|
    ensures var g := Span(s[k..], p);
      && k + g <= |s| && All(s[k..k + g], p)
      && (k + g < |s| ==> !In(s[k + g..][0], p))
      && (k < |s| && In(s[k], p) ==> g > 0)
  {
    var g := Span(s[k..], p);
    assert k < |s| ==> s[k..][0] == s[k];
    assert k + g < |s| ==> s[k + g..][0] == s[k..][g];
    assert forall i {:trigger s[k..k + g][i]} :: 0 <= i < g ==> s[k..k + g][i] == s[k..][i];
  }

  lemma Decompose(s: string, k: nat, j: nat)
    requires k <= j <= |s|
    ensures s == s[..k] + (s[k..j] + s[j..])
  {
    assert s[k..] == s[k..j] + s[j..];
    assert s == s[..k] + s[k..];
  }

  /** `Split` of a string without separators is that string alone. */
  lemma SplitNone(s: string, sep: CharClass)
    requires NoneOf(s, sep)
    ensures Split(s, sep) == [s]
  {
    assert s[..|s|] == s;
  }

  /** The pieces of `Split`, joined back together, are `s` with its separators removed. */
  lemma {:induction false} SplitKeepsContent(s: string, sep: CharClass)
    ensures Concat(Split(s, sep)) == Without(s, sep)
    decreases |s|
  {
    if NoneOf(s, sep) {
      SplitNone(s, sep);
      WithoutNone(s, [], sep);
      assert s + [] == s;
    } else {
      var piece, run, rest := SplitStep(s, sep);
      SplitKeepsContent(rest, sep);
      ConcatCons(piece, Split(rest, sep));
      WithoutNone(piece, run + rest, sep);
      WithoutAll(run, rest, sep);
    }
  }

  lemma ConcatCons(x: string, pieces: seq<string>)
    ensures Concat([x] + pieces) == x + Concat(pieces)
  {
    assert ([x] + pieces)[1..] == pieces;
  }

  /** The concatenation of a sequence of strings. */
  function Concat(pieces: seq<string>): (r: string)
    ensures |pieces| == 1 ==> r == pieces[0]
  {
    if pieces == [] then [] else pieces[0] + Concat(pieces[1..])
  }

  /** Removing characters from a string that has none of them changes nothing. */
  lemma {:induction false} WithoutNone(a: string, b: string, p: CharClass)
    requires NoneOf(a, p)
    ensures Without(a + b, p) == a + Without(b, p)
  {
    if a == [] {
      assert a + b == b;
    } else {
      assert (a + b)[0] == a[0];
      assert (a + b)[1..] == a[1..] + b;
      WithoutNone(a[1..], b, p);
    }
  }

  /** A prefix made of removed characters disappears. */
  lemma {:induction false} WithoutAll(a: string, b: string, p: CharClass)
    requires All(a, p)
    ensures Without(a + b, p) == Without(b, p)
  {
    if a == [] {
      assert a + b == b;
    } else {
      assert (a + b)[0] == a[0];
      assert (a + b)[1..] == a[1..] + b;
      WithoutAll(a[1..], b, p);
    }
  }

  /** `s` without its trailing white space. */
  function TrimEnd(s: string): (r: string)
    ensures |r| <= |s| && r == s[..|r|]
    ensures All(s[|r|..], Space)
    ensures r == [] <==> All(s, Space)
    ensures r != [] ==> !IsSpace(r[|r| - 1])
  {
    if s != [] && IsSpace(s[|s| - 1]) then TrimEnd(s[..|s| - 1]) else s
  }

  /** `s.trim()`: `s` without its leading and trailing white space. It is empty exactly when
      `s` is all white space, and otherwise begins and ends with a character that is not white
      space; `TrimIsSlice` says where in `s` it lies. */
  function Trim(s: string): (r: string)
    ensures |r| <= |s|
    ensures r == [] <==> All(s, Space)
    ensures r != [] ==> !IsSpace(r[0]) && !IsSpace(r[|r| - 1])
  {
    var a := Span(s, Space);
    var r := TrimEnd(s[a..]);
    assert a < |s| ==> s[a..][0] == s[a];
    assert a == |s| ==> s[..a] == s;
    r
  }

  /** `Trim(s)` is the part of `s` between an all-white-space start of length `a` and an
      all-white-space end. */
  lemma TrimIsSlice(s: string) returns (a: nat)
    ensures a + |Trim(s)| <= |s| && s[a..a + |Trim(s)|] == Trim(s)
    ensures All(s[..a], Space) && All(s[a + |Trim(s)|..], Space)
  {
    TrimUnfold(s);
    SpanPrefix(s, Space);
    SliceOfSlice(s, Span(s, Space), |TrimEnd(s[Span(s, Space)..])|);
    a := Span(s, Space);
  }

  lemma TrimUnfold(s: string)
    ensures Trim(s) == TrimEnd(s[Span(s, Space)..])
  {
  }

  lemma SpanPrefix(s: string, p: CharClass)
    ensures All(s[..Span(s, p)], p)
  {
  }

  lemma SliceOfSlice(s: string, a: nat, n: nat)
    requires a + n <= |s|
    ensures s[a..a + n] == s[a..][..n] && s[a + n..] == s[a..][n..]
  {
  }
}
