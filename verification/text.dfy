/** The two `String` operations the loaders use: `split` on a one-character
    separator (limit 0) and `isBlank`. */
module Text {

  /** `Character.isWhitespace`: the ASCII controls TAB to CR and FS to US,
      and the Unicode space, line and paragraph separators except the
      no-break spaces U+00A0, U+2007 and U+202F. */
  predicate IsWhitespace(c: char) {
    || c == ' ' || ('\t' <= c <= '\r') || ('\U{1C}' <= c <= '\U{1F}')
    || c == '\U{1680}' || ('\U{2000}' <= c <= '\U{2006}') || ('\U{2008}' <= c <= '\U{200A}')
    || c == '\U{2028}' || c == '\U{2029}' || c == '\U{205F}' || c == '\U{3000}'
  }

  /** `isBlank`: empty or white space only. */
  predicate IsBlank(s: string) {
    forall i :: 0 <= i < |s| ==> IsWhitespace(s[i])
  }

  /** Every piece of `s` between separators, empty ones included: one more
      piece than there are separators. */
  function Pieces(s: string, sep: char): (ps: seq<string>)
    ensures |ps| >= 1
    ensures forall i :: 0 <= i < |ps| ==> sep !in ps[i]
  {
    if |s| == 0 then [""]
    else
      var rest := Pieces(s[1..], sep);
      if s[0] == sep then [""] + rest else [[s[0]] + rest[0]] + rest[1..]
  }

  /** The pieces glued back together with the separator. */
  function Join(ps: seq<string>, sep: char): string
    requires |ps| >= 1
  {
    if |ps| == 1 then ps[0] else ps[0] + [sep] + Join(ps[1..], sep)
  }

  /** Splitting into pieces loses nothing. */
  lemma {:induction false} JoinPieces(s: string, sep: char)
    ensures Join(Pieces(s, sep), sep) == s
  {
    if |s| > 0 {
      var rest := Pieces(s[1..], sep);
      JoinPieces(s[1..], sep);
      if s[0] == sep {
        assert ([""] + rest)[1..] == rest;
      } else {
        var ps := [[s[0]] + rest[0]] + rest[1..];
        if |rest| > 1 {
          assert ps[1..] == rest[1..];
          assert Join(rest, sep) == rest[0] + [sep] + Join(rest[1..], sep);
        }
      }
    }
  }

  /** `n` empty strings. */
  function Empties(n: nat): (es: seq<string>)
    ensures |es| == n && forall i :: 0 <= i < n ==> es[i] == ""
  {
    seq(n, _ => "")
  }

  /** One more empty string at the end of a padded list. */
  lemma EmptiesAppend(qs: seq<string>, n: nat)
    ensures qs + Empties(n + 1) == (qs + Empties(n)) + [""]
  {
    assert Empties(n + 1) == Empties(n) + [""];
  }

  /** The list without its trailing empty strings. */
  function DropTrailingEmpty(ps: seq<string>): (qs: seq<string>)
    ensures |qs| <= |ps| && qs == ps[..|qs|] && qs + Empties(|ps| - |qs|) == ps
    ensures |qs| == 0 || qs[|qs| - 1] != ""
  {
    if |ps| == 0 || ps[|ps| - 1] != "" then ps
    else
      var init := ps[..|ps| - 1];
      var qs := DropTrailingEmpty(init);
      EmptiesAppend(qs, |init| - |qs|);
      assert init + [""] == ps;
      assert ps[..|qs|] == init[..|qs|];
      qs
  }

  /** `s.split(String.valueOf(sep))`: the input alone when it holds no
      separator; otherwise the pieces with trailing empty ones removed. */
  function Split(s: string, sep: char): (ps: seq<string>)
    ensures sep !in s ==> ps == [s]
    ensures forall i :: 0 <= i < |ps| ==> sep !in ps[i]
  {
    if sep !in s then [s] else DropTrailingEmpty(Pieces(s, sep))
  }

  /** Padding the split with the removed empty pieces and joining gives the
      input back. */
  lemma SplitRoundTrip(s: string, sep: char)
    ensures |Split(s, sep)| <= |Pieces(s, sep)|
    ensures Join(Split(s, sep) + Empties(|Pieces(s, sep)| - |Split(s, sep)|), sep) == s
  {
    PaddedSplit(s, sep);
    JoinPieces(s, sep);
  }

  /** The split, padded with the empty pieces it dropped, is every piece. */
  lemma PaddedSplit(s: string, sep: char)
    ensures |Split(s, sep)| <= |Pieces(s, sep)|
    ensures Split(s, sep) + Empties(|Pieces(s, sep)| - |Split(s, sep)|) == Pieces(s, sep)
  {
    var ps := Pieces(s, sep);
    if sep !in s {
      NoSeparatorOnePiece(s, sep);
      assert Split(s, sep) == ps;
      assert Empties(0) == [];
      assert ps + [] == ps;
    } else {
      var qs := DropTrailingEmpty(ps);
      assert Split(s, sep) == qs;
      assert qs + Empties(|ps| - |qs|) == ps;
    }
  }

  lemma {:induction false} NoSeparatorOnePiece(s: string, sep: char)
    requires sep !in s
    ensures Pieces(s, sep) == [s]
  {
    if |s| > 0 {
      assert sep !in s[1..];
      NoSeparatorOnePiece(s[1..], sep);
      assert [s[0]] + s[1..] == s;
    }
  }

  /** The corner cases of `split`: an empty string gives one empty field, a
      lone separator gives none, a leading separator gives a leading empty
      field, and trailing empty fields are dropped. */
  lemma SplitOfEmpty()
    ensures Split("", ',') == [""]
  {
  }

  lemma SplitOfSeparator()
    ensures Split(",", ',') == []
  {
    assert ","[1..] == "";
    assert Pieces(",", ',') == ["", ""];
  }

  lemma SplitLeadingSeparator()
    ensures Split(",7", ',') == ["", "7"]
  {
    assert "7"[1..] == "" && ['7'] + "" == "7";
    assert Pieces("7", ',') == ["7"];
    assert ",7"[1..] == "7";
    assert Pieces(",7", ',') == ["", "7"];
  }

  lemma SplitTrailingSeparators()
    ensures Split("1,,2,,", ',') == ["1", "", "2"]
  {
    var ps := ["1", "", "2", "", ""];
    PiecesTrailingSeparators();
    assert ps[..4][..3] == ["1", "", "2"];
    assert DropTrailingEmpty(ps[..4][..3]) == ["1", "", "2"];
    assert DropTrailingEmpty(ps[..4]) == ["1", "", "2"];
    assert DropTrailingEmpty(ps) == ["1", "", "2"];
  }

  lemma PiecesTrailingSeparators()
    ensures Pieces("1,,2,,", ',') == ["1", "", "2", "", ""]
  {
    assert ","[1..] == "";
    assert Pieces(",", ',') == ["", ""];
    assert ",,"[1..] == ",";
    assert Pieces(",,", ',') == ["", "", ""];
    assert "2,,"[1..] == ",," && ['2'] + "" == "2";
    assert Pieces("2,,", ',') == ["2", "", ""];
    assert ",2,,"[1..] == "2,,";
    assert Pieces(",2,,", ',') == ["", "2", "", ""];
    assert ",,2,,"[1..] == ",2,,";
    assert Pieces(",,2,,", ',') == ["", "", "2", "", ""];
    assert "1,,2,,"[1..] == ",,2,,";
    assert ['1'] + "" == "1";
  }
}
