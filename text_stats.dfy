/** The text statistics of the prediction result: `wordCount` is
    `text.split(/\s+/).filter((w) => w.length > 0).length` and `sentenceCount` (reported again
    as `totalSentences`) is `text.split(/[.!?]+/).filter((s) => s.trim().length > 0).length`.
    Both are modelled as written, with `Split`, `Filter` and `Trim`, and then proved equal to
    counts of maximal runs. */
module TextStats {
  import opened JsString
  import opened Runs

  /** `pieces.filter(keep)`: the pieces for which `keep` holds, in order. */
  function Filter(pieces: seq<string>, keep: string -> bool): (r: seq<string>)
    ensures |r| <= |pieces|
    ensures forall w :: w in r ==> w in pieces && keep(w)
  {
    if pieces == [] then []
    else (if keep(pieces[0]) then [pieces[0]] else []) + Filter(pieces[1..], keep)
  }

  lemma FilterCons(x: string, pieces: seq<string>, keep: string -> bool)
    ensures Filter([x] + pieces, keep) == (if keep(x) then [x] else []) + Filter(pieces, keep)
  {
    assert ([x] + pieces)[1..] == pieces;
  }

  /** The word filter `(w) => w.length > 0`. */
  predicate NonEmpty(w: string) { |w| > 0 }

  /** The sentence filter `(s) => s.trim().length > 0`. */
  predicate TrimsNonEmpty(s: string) { |Trim(s)| > 0 }

  /** The words of `text`: each is non-empty and holds no white space. */
  function Words(text: string): (r: seq<string>)
    ensures forall w :: w in r ==> w != [] && NoneOf(w, Space)
  {
    Filter(Split(text, Space), NonEmpty)
  }

  /** The sentences of `text`: each holds no terminator and a character that is not white space. */
  function Sentences(text: string): (r: seq<string>)
    ensures forall s :: s in r ==> NoneOf(s, Terminator) && !All(s, Space)
  {
    Filter(Split(text, Terminator), TrimsNonEmpty)
  }

  function WordCount(text: string): (n: nat) { |Words(text)| }

  function SentenceCount(text: string): (n: nat) { |Sentences(text)| }

  /** `split` yields one piece more than there are separator runs. */
  lemma {:induction false} PieceCount(s: string, sep: CharClass)
    ensures |Split(s, sep)| == Scan(s, sep, false) + 1
    decreases |s|
  {
    if NoneOf(s, sep) {
      SplitNone(s, sep);
      ScanZero(s, sep);
    } else {
      var piece, run, rest := SplitStep(s, sep);
      PieceCount(rest, sep);
      if piece != [] {
        ScanGap(piece, run + rest, sep, false);
      } else {
        assert s == run + rest;
      }
      ScanRun(run, rest, sep, false);
      ScanRestart(rest, sep, true);
    }
  }

  /** Scanning a piece, then a separator run, then the rest: the piece is one run if it is not
      empty, and the separator run closes it. */
  lemma ScanPieceThenGap(piece: string, run: string, rest: string, p: CharClass)
    requires All(piece, p) && run != [] && NoneOf(run, p)
    ensures Scan(piece + (run + rest), p, false) == (if piece != [] then 1 else 0) + Scan(rest, p, false)
  {
    ScanRun(piece, run + rest, p, false);
    ScanGap(run, rest, p, piece != []);
  }

  lemma {:induction false} WordsAreRuns(s: string)
    ensures WordCount(s) == Scan(s, NonSpace, false)
    decreases |s|
  {
    if NoneOf(s, Space) {
      SplitNone(s, Space);
      FilterCons(s, [], NonEmpty);
      ScanRun(s, [], NonSpace, false);
      assert s + [] == s;
    } else {
      var piece, run, rest := SplitStep(s, Space);
      Complement(piece, SpaceChars);
      Complement(run, SpaceChars);
      WordsAreRuns(rest);
      FilterCons(piece, Split(rest, Space), NonEmpty);
      ScanPieceThenGap(piece, run, rest, NonSpace);
    }
  }

  lemma {:induction false} SentencesAreRuns(s: string)
    ensures SentenceCount(s) == Scan(Without(s, Space), NonTerminator, false)
    decreases |s|
  {
    if NoneOf(s, Terminator) {
      SplitNone(s, Terminator);
      FilterCons(s, [], TrimsNonEmpty);
      var w := SentencePiece(s);
      ScanRun(w, [], NonTerminator, false);
      assert w + [] == w;
    } else {
      var piece, run, rest := SplitStep(s, Terminator);
      SentencesAreRuns(rest);
      SentenceStep(s, piece, run, rest);
    }
  }

  /** A piece, a terminator run and the rest: the piece adds one sentence to both counts when
      it does not trim to nothing, and none otherwise. */
  lemma SentenceStep(s: string, piece: string, run: string, rest: string)
    requires s == piece + (run + rest)
    requires NoneOf(piece, Terminator) && run != [] && All(run, Terminator)
    requires Split(s, Terminator) == [piece] + Split(rest, Terminator)
    ensures var one := if TrimsNonEmpty(piece) then 1 else 0;
      && SentenceCount(s) == one + SentenceCount(rest)
      && Scan(Without(s, Space), NonTerminator, false)
         == one + Scan(Without(rest, Space), NonTerminator, false)
  {
    FilterCons(piece, Split(rest, Terminator), TrimsNonEmpty);
    var w := SentencePiece(piece);
    SentenceSplitWithout(piece, run, rest);
    ScanPieceThenGap(w, run, Without(rest, Space), NonTerminator);
  }

  /** A piece between terminators, with white space removed, lies inside one run of
      non-terminators, and it is empty exactly when the piece trims to nothing. */
  lemma SentencePiece(piece: string) returns (w: string)
    requires NoneOf(piece, Terminator)
    ensures w == Without(piece, Space)
    ensures All(w, NonTerminator)
    ensures w != [] <==> TrimsNonEmpty(piece)
  {
    w := Without(piece, Space);
    WithoutKeepsNone(piece, Space, Terminator);
    WithoutEmpty(piece, Space);
  }

  /** Removing white space leaves a terminator run in place. */
  lemma SentenceSplitWithout(piece: string, run: string, rest: string)
    requires All(run, Terminator)
    ensures Without(piece + (run + rest), Space)
         == Without(piece, Space) + (run + Without(rest, Space))
  {
    WithoutAppend(piece, run + rest, Space);
    forall i | 0 <= i < |run| ensures !IsSpace(run[i]) {
      TerminatorIsNotSpace(run[i]);
    }
    WithoutNone(run, rest, Space);
  }

  lemma {:induction false} WithoutKeepsNone(s: string, p: CharClass, q: CharClass)
    requires NoneOf(s, q)
    ensures NoneOf(Without(s, p), q)
  {
    if s != [] {
      WithoutKeepsNone(s[1..], p, q);
    }
  }

  lemma {:induction false} WithoutEmpty(s: string, p: CharClass)
    ensures Without(s, p) == [] <==> All(s, p)
  {
    if s != [] {
      WithoutEmpty(s[1..], p);
      assert All(s, p) <==> In(s[0], p) && All(s[1..], p) by {
        if In(s[0], p) && All(s[1..], p) {
          forall i | 0 <= i < |s| ensures In(s[i], p) {
            if i > 0 { assert s[i] == s[1..][i - 1]; }
          }
        }
      }
    }
  }

  /** Joined back together, the words are the text with its white space removed: filtering
      drops only empty pieces, which contribute nothing. */
  lemma WordsKeepText(text: string)
    ensures Concat(Words(text)) == Without(text, Space)
  {
    SplitKeepsContent(text, Space);
    FilterEmptyKeepsConcat(Split(text, Space));
  }

  lemma {:induction false} FilterEmptyKeepsConcat(pieces: seq<string>)
    ensures Concat(Filter(pieces, NonEmpty)) == Concat(pieces)
  {
    if pieces != [] {
      FilterEmptyKeepsConcat(pieces[1..]);
      assert pieces == [pieces[0]] + pieces[1..];
      ConcatCons(pieces[0], pieces[1..]);
      FilterCons(pieces[0], pieces[1..], NonEmpty);
      if NonEmpty(pieces[0]) {
        ConcatCons(pieces[0], Filter(pieces[1..], NonEmpty));
      } else {
        assert [] + Filter(pieces[1..], NonEmpty) == Filter(pieces[1..], NonEmpty);
        assert pieces[0] + Concat(pieces[1..]) == Concat(pieces[1..]);
      }
    }
  }

  /** The word count is the number of maximal runs of characters that are not white space. */
  lemma WordCountIsRunCount(text: string)
    ensures WordCount(text) == RunCount(text, NonSpace)
  {
    WordsAreRuns(text);
    ScanIsRunCount(text, NonSpace);
  }

  /** There are no more words than characters, and none exactly when the text is all white
      space. */
  lemma WordCountBounds(text: string)
    ensures WordCount(text) <= |text|
    ensures WordCount(text) == 0 <==> All(text, Space)
  {
    WordCountIsRunCount(text);
    RunCountZero(text, NonSpace);
  }

  /** The sentence count is the number of maximal runs of non-terminators in the text with its
      white space removed. */
  lemma SentenceCountIsRunCount(text: string)
    ensures SentenceCount(text) == RunCount(Without(text, Space), NonTerminator)
  {
    SentencesAreRuns(text);
    ScanIsRunCount(Without(text, Space), NonTerminator);
  }

  /** There is no sentence exactly when the text is made of white space and terminators only,
      and there is at most one sentence more than there are terminator runs. */
  lemma SentenceCountBounds(text: string)
    ensures SentenceCount(text) == 0 <==> forall i :: 0 <= i < |text| ==> IsSpace(text[i]) || IsTerminator(text[i])
    ensures SentenceCount(text) <= RunCount(text, Terminator) + 1
  {
    SentenceCountIsRunCount(text);
    RunCountZero(Without(text, Space), NonTerminator);
    WithoutNoneOf(text, Space, NonTerminator);
    PieceCount(text, Terminator);
    ScanIsRunCount(text, Terminator);
  }

  /** After removing the `p`-characters, no character satisfies `q` exactly when every
      character satisfied `p` or failed `q`. */
  lemma {:induction false} WithoutNoneOf(s: string, p: CharClass, q: CharClass)
    ensures NoneOf(Without(s, p), q) <==> forall i :: 0 <= i < |s| ==> In(s[i], p) || !In(s[i], q)
  {
    if s != [] {
      WithoutNoneOf(s[1..], p, q);
      var head := if In(s[0], p) then [] else [s[0]];
      assert Without(s, p) == head + Without(s[1..], p);
      NoneOfAppend(head, Without(s[1..], p), q);
      assert (forall i :: 0 <= i < |s| ==> In(s[i], p) || !In(s[i], q))
         <==> (In(s[0], p) || !In(s[0], q)) && (forall i :: 0 <= i < |s[1..]| ==> In(s[1..][i], p) || !In(s[1..][i], q)) by {
        if (In(s[0], p) || !In(s[0], q)) && (forall i :: 0 <= i < |s[1..]| ==> In(s[1..][i], p) || !In(s[1..][i], q)) {
          forall i | 0 <= i < |s| ensures In(s[i], p) || !In(s[i], q) {
            if i > 0 { assert s[i] == s[1..][i - 1]; }
          }
        }
      }
    }
  }
}
