// helper_scripts/remove_member.py: `wrap_str` pads the columns of the
// listing shown before members are deleted.  The prompt, the confirmation
// and the deletion are interactive I/O.
module RemoveMember {
  import opened Strings

  /** The default column width. */
  const DefaultWidth: int := 20

  /** `wrap_str(start_str, length=20)`: right-pad with spaces to `length`. */
  function WrapStr(s: string, length: int := DefaultWidth): (r: string)
    ensures |s| < length ==> |r| == length
    ensures |s| >= length ==> r == s
    ensures s <= r
    ensures forall i :: |s| <= i < |r| ==> r[i] == ' '
  {
    if |s| < length then s + Spaces(length - |s|) else s
  }

  /** The result is exactly as long as the longer of the input and the width. */
  lemma WrapLength(s: string, length: int)
    ensures |WrapStr(s, length)| == if |s| < length then length else |s|
  {
  }

  /** Wrapping an already wrapped string changes nothing. */
  lemma WrapIdempotent(s: string, length: int)
    ensures WrapStr(WrapStr(s, length), length) == WrapStr(s, length)
  {
  }

  /** The input is the prefix of its own length: dropping the padding recovers it. */
  lemma WrapRecoverable(s: string, length: int)
    ensures WrapStr(s, length)[..|s|] == s
  {
  }

  /** One line of the listing: full name, email and group, in padded columns. */
  function ListingLine(fullName: string, email: string, group: string): (line: string)
    ensures |line| >= 65
    ensures line[..2] == "  " && line[|line| - 1] == ' '
  {
    "  " + WrapStr(fullName) + "  |  " + WrapStr(email) + "  |  " + WrapStr(group, 12) + " "
  }

  /** Short names and emails line the columns up: both separators sit at fixed places. */
  lemma ListingAligned(fullName: string, email: string, group: string)
    requires |fullName| < 20 && |email| < 20
    ensures ListingLine(fullName, email, group)[22..27] == "  |  "
    ensures ListingLine(fullName, email, group)[47..52] == "  |  "
  {
    var w1 := WrapStr(fullName);
    var w2 := WrapStr(email);
    var line := ListingLine(fullName, email, group);
    assert line == ("  " + w1 + "  |  " + w2) + ("  |  " + WrapStr(group, 12) + " ");
  }
}
