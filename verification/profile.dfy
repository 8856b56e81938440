/**
  The computations of app/screens/ProfileScreen.js: the initials shown in
  place of a missing profile picture, `name.split(' ').map(n => n[0]).join('')`,
  and two style choices.
*/
module ProfileScreen {

  // ---------------------------------------------------------------------------
  // Splitting on spaces and joining back
  // ---------------------------------------------------------------------------

  /**
    `s.split(' ')`: the pieces between single spaces. Leading, trailing and
    repeated spaces give empty pieces; there is always at least one piece.
  */
  function Split(s: string): (pieces: seq<string>)
    ensures |pieces| >= 1
    ensures forall w :: w in pieces ==> ' ' !in w
  {
    if s == [] then [""]
    else if s[0] == ' ' then [""] + Split(s[1..])
    else
      var rest := Split(s[1..]);
      [[s[0]] + rest[0]] + rest[1..]
  }

  /** `pieces.join(' ')`. */
  function Join(pieces: seq<string>): string
    decreases |pieces|
  {
    if pieces == [] then ""
    else if |pieces| == 1 then pieces[0]
    else pieces[0] + " " + Join(pieces[1..])
  }

  /** Joining the pieces with single spaces gives back the string that was split. */
  lemma {:induction false} JoinSplit(s: string)
    ensures Join(Split(s)) == s
  {
    if s == [] {
    } else if s[0] == ' ' {
      JoinSplit(s[1..]);
      assert s == " " + s[1..];
    } else {
      var rest := Split(s[1..]);
      JoinSplit(s[1..]);
      if |rest| == 1 {
        assert s == [s[0]] + rest[0];
      } else {
        assert Join(rest) == rest[0] + " " + Join(rest[1..]);
        assert s == [s[0]] + rest[0] + " " + Join(rest[1..]);
        assert ([[s[0]] + rest[0]] + rest[1..])[1..] == rest[1..];
      }
    }
  }

  /** Splitting space-free pieces joined with single spaces gives the pieces back. */
  lemma {:induction false} SplitJoin(pieces: seq<string>)
    requires |pieces| >= 1
    requires forall w :: w in pieces ==> ' ' !in w
    ensures Split(Join(pieces)) == pieces
    decreases |pieces|, |pieces[0]|
  {
    var w := pieces[0];
    if |pieces| == 1 {
      SplitWord(w);
    } else {
      var tail := pieces[1..];
      SplitJoin(tail);
      SplitWordThen(w, Join(tail));
      assert Join(pieces) == w + " " + Join(tail);
    }
  }

  /** A space-free string is a single piece. */
  lemma {:induction false} SplitWord(w: string)
    requires ' ' !in w
    ensures Split(w) == [w]
  {
    if w != [] {
      SplitWord(w[1..]);
      assert w == [w[0]] + w[1..];
    }
  }

  /** A space-free word followed by a space and more text splits into the word and the rest's pieces. */
  lemma {:induction false} SplitWordThen(w: string, rest: string)
    requires ' ' !in w
    ensures Split(w + " " + rest) == [w] + Split(rest)
  {
    if w == [] {
      assert w + " " + rest == " " + rest;
      assert (" " + rest)[1..] == rest;
    } else {
      SplitWordThen(w[1..], rest);
      assert (w + " " + rest)[1..] == w[1..] + " " + rest;
      assert w == [w[0]] + w[1..];
    }
  }

  // ---------------------------------------------------------------------------
  // Initials
  // ---------------------------------------------------------------------------

  /** `n[0]` as `join` renders it: the first character, or "" for the empty piece (undefined). */
  function FirstChar(w: string): (c: string)
    ensures w == "" ==> c == ""
    ensures w != "" ==> c == [w[0]]
  {
    if w == "" then "" else [w[0]]
  }

  /** `pieces.map(n => n[0]).join('')`. */
  function FirstChars(pieces: seq<string>): string {
    if pieces == [] then "" else FirstChar(pieces[0]) + FirstChars(pieces[1..])
  }

  /**
    The initials shown in the profile picture placeholder: they contain no
    space, and a name that starts with a letter starts its initials with it.
  */
  function Initials(name: string): (initials: string)
    ensures ' ' !in initials
    ensures name != "" && name[0] != ' ' ==> initials != "" && initials[0] == name[0]
  {
    FirstCharsNoSpace(Split(name));
    FirstChars(Split(name))
  }

  /** The first characters of space-free pieces contain no space. */
  lemma {:induction false} FirstCharsNoSpace(pieces: seq<string>)
    requires forall w :: w in pieces ==> ' ' !in w
    ensures ' ' !in FirstChars(pieces)
  {
    if pieces != [] {
      assert pieces[0] in pieces;
      assert forall w :: w in pieces[1..] ==> w in pieces;
      FirstCharsNoSpace(pieces[1..]);
    }
  }

  /** How many pieces are non-empty. */
  function CountNonEmpty(pieces: seq<string>): nat {
    if pieces == [] then 0 else (if pieces[0] != "" then 1 else 0) + CountNonEmpty(pieces[1..])
  }

  /**
    An independent reading of the initials: scanning the name, every
    non-space character that follows a space (or starts the name) is kept.
  */
  function WordStarts(s: string, afterSpace: bool): string {
    if s == [] then ""
    else if s[0] == ' ' then WordStarts(s[1..], true)
    else (if afterSpace then [s[0]] else "") + WordStarts(s[1..], false)
  }

  /** The initials are exactly the characters that start a word of the name, in order. */
  lemma {:induction false} InitialsAreWordStarts(name: string)
    ensures Initials(name) == WordStarts(name, true)
    ensures FirstChars(Split(name)[1..]) == WordStarts(name, false)
  {
    if name == [] {
    } else if name[0] == ' ' {
      InitialsAreWordStarts(name[1..]);
      assert ([""] + Split(name[1..]))[1..] == Split(name[1..]);
    } else {
      var rest := Split(name[1..]);
      InitialsAreWordStarts(name[1..]);
      var pieces := [[name[0]] + rest[0]] + rest[1..];
      assert pieces[1..] == rest[1..];
      assert FirstChars(pieces) == [name[0]] + FirstChars(rest[1..]);
    }
  }

  /** One initial per non-empty piece. */
  lemma {:induction false} FirstCharsLength(pieces: seq<string>)
    ensures |FirstChars(pieces)| == CountNonEmpty(pieces)
  {
    if pieces != [] {
      FirstCharsLength(pieces[1..]);
    }
  }

  /** Every initial is the first character of some non-empty piece. */
  lemma {:induction false} FirstCharsFromPieces(pieces: seq<string>, i: int)
    requires 0 <= i < |FirstChars(pieces)|
    ensures exists w :: w in pieces && w != "" && w[0] == FirstChars(pieces)[i]
  {
    var w := pieces[0];
    if w != "" && i == 0 {
      assert w in pieces && w[0] == FirstChars(pieces)[i];
    } else {
      var j := if w != "" then i - 1 else i;
      assert FirstChars(pieces)[i] == FirstChars(pieces[1..])[j];
      FirstCharsFromPieces(pieces[1..], j);
      var v :| v in pieces[1..] && v != "" && v[0] == FirstChars(pieces[1..])[j];
      assert v in pieces;
    }
  }

  /**
    The initials have one character per non-empty space-separated piece of the
    name, and each is the first character of such a piece.
  */
  lemma InitialsPerWord(name: string)
    ensures |Initials(name)| == CountNonEmpty(Split(name))
    ensures forall i :: 0 <= i < |Initials(name)| ==>
      exists w :: w in Split(name) && w != "" && w[0] == Initials(name)[i]
  {
    FirstCharsLength(Split(name));
    forall i | 0 <= i < |Initials(name)|
      ensures exists w :: w in Split(name) && w != "" && w[0] == Initials(name)[i]
    {
      FirstCharsFromPieces(Split(name), i);
    }
  }

  /** A name without spaces gives its first character; the empty name gives "". */
  lemma InitialsOfOneWord(name: string)
    requires ' ' !in name
    ensures Initials(name) == if name == "" then "" else [name[0]]
  {
    SplitWord(name);
    assert [name][1..] == [];
    assert Initials(name) == FirstChar(name) + FirstChars([]);
  }

  /** The profile's user. */
  lemma InitialsOfAnshuKumar()
    ensures Initials("Anshu Kumar") == "AK"
  {
    var pieces := ["Anshu", "Kumar"];
    assert "Anshu Kumar" == "Anshu" + " " + "Kumar";
    SplitWordThen("Anshu", "Kumar");
    SplitWord("Kumar");
    assert Split("Anshu Kumar") == pieces;
    assert FirstChars(pieces) == "A" + FirstChars(["Kumar"]) by {
      assert pieces[1..] == ["Kumar"];
    }
    assert FirstChars(["Kumar"]) == "K" + FirstChars([]) by {
      assert ["Kumar"][1..] == [];
    }
  }

  // ---------------------------------------------------------------------------
  // Style choices
  // ---------------------------------------------------------------------------

  /** The two looks of an activity's status badge. */
  datatype StatusStyle = ResolvedStyle | InProgressStyle

  /** The badge is drawn resolved for exactly the status "Resolved", in progress for any other. */
  function StatusBadgeStyle(status: string): (style: StatusStyle)
    ensures style == ResolvedStyle <==> status == "Resolved"
    ensures style == InProgressStyle <==> status != "Resolved"
  {
    if status == "Resolved" then ResolvedStyle else InProgressStyle
  }

  /** Whether an achievement badge and its name are drawn with the disabled style. */
  datatype BadgeLook = BadgeLook(badgeDisabled: bool, nameDisabled: bool)

  /** A badge and its name are drawn disabled exactly when the badge is not earned. */
  function BadgeStyle(earned: bool): (look: BadgeLook)
    ensures look.badgeDisabled <==> !earned
    ensures look.nameDisabled <==> !earned
  {
    BadgeLook(!earned, !earned)
  }
}
