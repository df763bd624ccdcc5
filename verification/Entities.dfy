/** The avatar initials of the entity list (src/pages/Entities.tsx):
    `name.split(' ').map(n => n[0]).join('')`. Splitting on a single space
    yields an empty piece for each leading, trailing or repeated space; the
    first character of an empty piece is `undefined`, which `join` writes as
    the empty string. */
module Entities {

  /** `s.split(' ')`: the pieces between single spaces, empty pieces included. */
  function SplitSpace(s: string): (pieces: seq<string>)
    ensures |pieces| >= 1
    ensures forall i :: 0 <= i < |pieces| ==> ' ' !in pieces[i]
  {
    if s == [] then [""]
    else
      var rest := SplitSpace(s[1..]);
      if s[0] == ' ' then [""] + rest
      else
        assert forall c :: c in [s[0]] + rest[0] ==> c == s[0] || c in rest[0];
        [[s[0]] + rest[0]] + rest[1..]
  }

  /** `pieces.join(' ')`. */
  function JoinSpace(pieces: seq<string>): string
    requires |pieces| >= 1
  {
    if |pieces| == 1 then pieces[0] else pieces[0] + " " + JoinSpace(pieces[1..])
  }

  /** `n[0]` joined: the first character, or nothing for an empty piece. */
  function Head(piece: string): string
  {
    if piece == "" then "" else [piece[0]]
  }

  /** `pieces.map(n => n[0]).join('')`. */
  function FirstChars(pieces: seq<string>): string
  {
    if pieces == [] then "" else Head(pieces[0]) + FirstChars(pieces[1..])
  }

  /** The initials of a name. */
  function Initials(name: string): string
  {
    FirstChars(SplitSpace(name))
  }

  /** Reference definition: the characters that start a word, that is, the
      non-space characters at the start of the name or right after a space.
      `afterSpace` says whether the previous character was a space (or there
      was none). */
  function WordStarts(s: string, afterSpace: bool): string
  {
    if s == [] then ""
    else (if s[0] != ' ' && afterSpace then [s[0]] else "") + WordStarts(s[1..], s[0] == ' ')
  }

  /** Number of non-empty pieces. */
  function NonEmptyCount(pieces: seq<string>): nat
  {
    if pieces == [] then 0 else (if pieces[0] != "" then 1 else 0) + NonEmptyCount(pieces[1..])
  }

  // ---------------------------------------------------------------------
  // Properties
  // ---------------------------------------------------------------------

  /** Joining the pieces with spaces gives the name back: split loses nothing. */
  lemma {:induction false} SplitJoinRoundTrip(s: string)
    ensures JoinSpace(SplitSpace(s)) == s
  {
    if s != [] {
      SplitJoinRoundTrip(s[1..]);
      var rest := SplitSpace(s[1..]);
      if s[0] == ' ' {
        assert ([""] + rest)[1..] == rest;
        assert s == [s[0]] + s[1..];
      } else {
        var first := [s[0]] + rest[0];
        var pieces := [first] + rest[1..];
        if |rest| == 1 {
          assert s == [s[0]] + s[1..];
        } else {
          assert pieces[1..] == rest[1..];
          assert JoinSpace(rest) == rest[0] + " " + JoinSpace(rest[1..]);
          assert s == [s[0]] + s[1..];
        }
      }
    }
  }

  lemma FirstCharsCons(x: string, r: seq<string>)
    ensures FirstChars([x] + r) == Head(x) + FirstChars(r)
  {
    assert ([x] + r)[1..] == r;
  }

  /** The initials are exactly the characters that start a word. */
  lemma {:induction false} InitialsAreWordStarts(s: string)
    ensures FirstChars(SplitSpace(s)) == WordStarts(s, true)
    ensures FirstChars(SplitSpace(s)[1..]) == WordStarts(s, false)
  {
    if s != [] {
      InitialsAreWordStarts(s[1..]);
      var rest := SplitSpace(s[1..]);
      if s[0] == ' ' {
        FirstCharsCons("", rest);
        assert ([""] + rest)[1..] == rest;
      } else {
        var first := [s[0]] + rest[0];
        FirstCharsCons(first, rest[1..]);
        assert ([first] + rest[1..])[1..] == rest[1..];
      }
    }
  }

  /** One initial per non-empty piece. */
  lemma {:induction false} InitialsLength(pieces: seq<string>)
    ensures |FirstChars(pieces)| == NonEmptyCount(pieces)
  {
    if pieces != [] {
      InitialsLength(pieces[1..]);
    }
  }

  /** No initial is a space. */
  lemma {:induction false} InitialsHaveNoSpace(s: string, afterSpace: bool)
    ensures ' ' !in WordStarts(s, afterSpace)
  {
    if s != [] {
      InitialsHaveNoSpace(s[1..], s[0] == ' ');
    }
  }

  /** A name without spaces gives its first character, an empty name gives
      nothing, and leading or repeated spaces add nothing. */
  lemma {:induction false} SingleWord(s: string)
    requires ' ' !in s
    ensures SplitSpace(s) == [s]
    ensures Initials(s) == (if s == "" then "" else [s[0]])
  {
    if s != [] {
      assert ' ' !in s[1..] by {
        assert forall c :: c in s[1..] ==> c in s;
      }
      SingleWord(s[1..]);
      assert [s[0]] + s[1..] == s;
    }
  }

  lemma InitialsExample()
    ensures Initials("Jo Li") == "JL"
  {
    InitialsAreWordStarts("Jo Li");
    assert WordStarts("Li", false) == "";
  }

  lemma SpacedInitialsExample()
    ensures Initials(" A  B ") == "AB"
  {
    InitialsAreWordStarts(" A  B ");
    assert WordStarts(" ", false) == "";
  }
}
