/** The profile page's avatar initials and its fallback for a missing name. */
module ProfileScreen {
  import opened Wrappers
  import Text
  import Lists

  predicate NonEmpty(piece: string)
  {
    piece != []
  }

  /** The pieces that contribute a character, in order. */
  function NonEmptyPieces(pieces: seq<string>): seq<string>
  {
    Lists.Filter(NonEmpty, pieces)
  }

  /**
   * `.map(n => n[0]).join('')`: the first character of every piece, in order. An empty piece's
   * `n[0]` is `undefined`, which `join` writes as nothing.
   */
  function FirstChars(pieces: seq<string>): (r: string)
    ensures |r| == |NonEmptyPieces(pieces)|
    ensures forall k :: 0 <= k < |r| ==> r[k] == NonEmptyPieces(pieces)[k][0]
  {
    if pieces == [] then []
    else
      NonEmptyPiecesStep(pieces);
      (if pieces[0] == [] then [] else [pieces[0][0]]) + FirstChars(pieces[1..])
  }

  /** One step of `NonEmptyPieces`: the first piece is kept exactly when it is non-empty. */
  lemma NonEmptyPiecesStep(pieces: seq<string>)
    requires pieces != []
    ensures NonEmptyPieces(pieces) ==
              (if pieces[0] == [] then [] else [pieces[0]]) + NonEmptyPieces(pieces[1..])
  {
  }

  /** `getInitials(name)`: split on single spaces, take each piece's first character, upper-case. */
  function Initials(name: string): (r: string)
    ensures |r| == |NonEmptyPieces(Text.Split(name, ' '))|
    ensures forall k :: 0 <= k < |r| ==> r[k] == Text.UpperChar(NonEmptyPieces(Text.Split(name, ' '))[k][0])
    ensures ' ' !in r
  {
    var pieces := Text.Split(name, ' ');
    var ne := NonEmptyPieces(pieces);
    var r := Text.ToUpper(FirstChars(pieces));
    assert forall k :: 0 <= k < |r| ==> r[k] != ' ' by {
      forall k | 0 <= k < |r| ensures r[k] != ' ' {
        assert ne[k] in pieces;
        assert ne[k][0] in ne[k];
      }
    }
    r
  }

  /** Two words separated by one space give the two upper-cased first letters. */
  lemma InitialsOfTwoWords(first: string, last: string)
    requires first != [] && last != []
    requires ' ' !in first && ' ' !in last
    ensures Initials(first + " " + last) == [Text.UpperChar(first[0]), Text.UpperChar(last[0])]
  {
    Text.SplitAtSeparator(first, last, ' ');
    Text.SplitWithoutSeparator(last, ' ');
    assert Text.Split(first + " " + last, ' ') == [first, last];
    assert FirstChars([first, last]) == [first[0], last[0]] by {
      assert [first, last][1..] == [last];
      assert [last][1..] == [];
    }
  }

  /** `user?.name || fallback`: a missing or empty name gives the fallback. */
  function DisplayName(name: Option<string>, fallback: string): (r: string)
    ensures name.Some? && name.value != "" ==> r == name.value
    ensures name.None? || name.value == "" ==> r == fallback
  {
    if name.Some? && name.value != "" then name.value else fallback
  }

  /** Both fallbacks, `'U'` for the image and `'User'` for the text avatar, give the initials `U`. */
  lemma MissingNameInitials(name: Option<string>)
    requires name.None? || name.value == ""
    ensures Initials(DisplayName(name, "U")) == "U"
    ensures Initials(DisplayName(name, "User")) == "U"
  {
    Text.SplitWithoutSeparator("U", ' ');
    Text.SplitWithoutSeparator("User", ' ');
    assert ["U"][1..] == [] && ["User"][1..] == [];
  }
}
