/**
 * The two-letter avatar the account page and the account side panel show
 * for a signed-in user. The code as written takes the first character of
 * the first and of the last space-separated piece of the full name; a name
 * with a leading, trailing or doubled space has an empty piece there, and
 * JavaScript then renders the missing character as the text "undefined"
 * (or, when both are missing, fails outright). This model's account side
 * panel uses the corrected reading, which takes the first and last words.
 */
module Initials {
  import opened Wrappers
  import opened Strings

  function Min(a: int, b: int): int
  {
    if a <= b then a else b
  }

  /** The string a piece's first character becomes in a concatenation: "undefined" for an empty piece. */
  function FirstOrUndefined(piece: string): (r: string)
    ensures piece != "" ==> r == [piece[0]]
  {
    if piece == "" then "undefined" else [piece[0]]
  }

  /**
   * The initials as the code computes them. None stands for the TypeError
   * raised when both pieces are empty: undefined + undefined is NaN, which
   * has no toUpperCase.
   */
  function UserInitialsAsWritten(fullName: string): Option<string>
  {
    if fullName == "" then Some("U")
    else
      var names := Split(fullName, ' ');
      if |names| >= 2 then
        var first, last := names[0], names[|names| - 1];
        if first == "" && last == "" then None
        else Some(ToUpper(FirstOrUndefined(first) + FirstOrUndefined(last)))
      else Some(ToUpper(fullName[..Min(2, |fullName|)]))
  }

  /** The words of a name: its space-separated pieces that are not empty. */
  function Words(fullName: string): seq<string>
  {
    Strings.Present(Split(fullName, ' '))
  }

  /**
   * The initials as intended: the first letters of the first and last
   * words, the first two letters of a single word, and "U" for a name with
   * no words.
   */
  function UserInitials(fullName: string): (r: string)
    ensures 1 <= |r| <= 2
  {
    var words := Words(fullName);
    if |words| >= 2 then ToUpper([words[0][0], words[|words| - 1][0]])
    else if |words| == 1 then ToUpper(words[0][..Min(2, |words[0]|)])
    else "U"
  }

  predicate NoEmptyPiece(parts: seq<string>)
  {
    forall k :: 0 <= k < |parts| ==> parts[k] != ""
  }

  lemma {:induction false} PresentOfClean(parts: seq<string>)
    requires NoEmptyPiece(parts)
    ensures Strings.Present(parts) == parts
  {
    if parts != [] {
      PresentOfClean(parts[1..]);
    }
  }

  /** The avatar never shows a space: every letter comes from a word. */
  lemma UserInitialsNoBlank(fullName: string)
    ensures ' ' !in UserInitials(fullName)
  {
    var pieces := Split(fullName, ' ');
    var words := Words(fullName);
    SplitPiecesClean(fullName, ' ');
    forall k | 0 <= k < |words| ensures ' ' !in words[k] {
      assert words[k] in pieces;
    }
    var r := UserInitials(fullName);
    if |words| >= 2 {
      assert words[0][0] in words[0] && words[|words| - 1][0] in words[|words| - 1];
    } else if |words| == 1 {
      var w := words[0][..Min(2, |words[0]|)];
      forall i | 0 <= i < |w| ensures w[i] != ' ' {
        assert w[i] in words[0];
      }
    }
  }

  /**
   * On a name without leading, trailing or doubled spaces the code as
   * written and the corrected reading agree.
   */
  lemma UserInitialsAgree(fullName: string)
    requires fullName == "" || NoEmptyPiece(Split(fullName, ' '))
    ensures UserInitialsAsWritten(fullName) == Some(UserInitials(fullName))
  {
    if fullName != "" {
      var names := Split(fullName, ' ');
      PresentOfClean(names);
      assert Words(fullName) == names;
      if |names| >= 2 {
        assert FirstOrUndefined(names[0]) + FirstOrUndefined(names[|names| - 1])
          == [names[0][0], names[|names| - 1][0]];
      } else {
        if ' ' in fullName {
          SplitWithSeparator(fullName, ' ');
        }
        SplitWithoutSeparator(fullName, ' ');
      }
    }
  }

  /** A leading space: the code shows "UNDEFINEDA" for " Ann", where "AN" was meant. */
  lemma LeadingSpaceShowsUndefined()
    ensures UserInitialsAsWritten(" Ann") == Some("UNDEFINEDA")
    ensures UserInitials(" Ann") == "AN"
  {
    SplitWithoutSeparator("Ann", ' ');
    assert " Ann"[1..] == "Ann";
    assert Split(" Ann", ' ') == ["", "Ann"];
    assert Words(" Ann") == ["Ann"];
    assert FirstOrUndefined("") + FirstOrUndefined("Ann") == "undefinedA";
    var u := ToUpper("undefinedA");
    assert u[0] == 'U' && u[1] == 'N' && u[2] == 'D' && u[3] == 'E' && u[4] == 'F';
    assert u[5] == 'I' && u[6] == 'N' && u[7] == 'E' && u[8] == 'D' && u[9] == 'A';
    assert u == "UNDEFINEDA";
    assert ToUpper("An") == "AN";
  }

  /** A name of spaces only: the code fails, where "U" was meant. */
  lemma BlankNameFails()
    ensures UserInitialsAsWritten(" ") == None
    ensures UserInitials(" ") == "U"
  {
    assert Split(" ", ' ') == ["", ""];
    assert Words(" ") == [];
  }
}
