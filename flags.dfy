/**
 * Flag normalisation (`convert_to_binary`, App.py:92-104) and group
 * assignment (`assign_group`, App.py:172-179).
 */
module Flags {
  import opened Text

  /** Tokens that read as 1 once trimmed and upper-cased. */
  const PositiveTokens: set<string> := {"1", "1.0", "YES", "Y", "TRUE", "T", "X"}

  /** Tokens the source lists as 0 once trimmed and upper-cased. */
  const NegativeTokens: set<string> := {"0", "0.0", "NO", "N", "FALSE", "F", "", "NA", "NAN", "NONE"}

  /** Renderings of a missing value, rewritten to "0" before the lookup. */
  const MissingTokens: seq<string> := ["NAN", "NA", "NONE", ""]

  const TokenValues: map<string, int> := map[
    "1" := 1, "1.0" := 1, "YES" := 1, "Y" := 1, "TRUE" := 1, "T" := 1, "X" := 1,
    "0" := 0, "0.0" := 0, "NO" := 0, "N" := 0, "FALSE" := 0, "F" := 0]

  function Normalize(raw: string): string {
    Upper(Strip(raw))
  }

  /**
   * The lookup of an already normalised token: missing-value renderings
   * become "0", then the token table applies. A token outside the table
   * reads as 0 here.
   */
  function TokenValue(s: string): (b: int)
    ensures b == 0 || b == 1
    ensures b == 1 <==> s in PositiveTokens
    ensures s in NegativeTokens ==> b == 0
  {
    var t := if s in MissingTokens then "0" else s;
    if t in TokenValues then TokenValues[t] else 0
  }

  /** One cell of `convert_to_binary`: trim, upper-case, look up. */
  function ConvertToBinary(raw: string): (b: int)
    ensures b == 0 || b == 1
    ensures b == 1 <==> Normalize(raw) in PositiveTokens
    ensures Normalize(raw) in NegativeTokens ==> b == 0
  {
    TokenValue(Normalize(raw))
  }

  lemma {:induction false} UpperLower(s: string)
    ensures Upper(Lower(s)) == Upper(s)
  {
    if s != [] {
      UpperLower(s[1..]);
      assert Lower(s)[1..] == Lower(s[1..]);
    }
  }

  lemma LowerKeepsSpace(c: char)
    ensures IsSpace(LowerChar(c)) == IsSpace(c)
  {
  }

  lemma {:induction false} TrimLeftLower(s: string)
    ensures TrimLeft(Lower(s)) == Lower(TrimLeft(s))
  {
    if s != [] {
      var t := Lower(s);
      assert t[0] == LowerChar(s[0]) && t[1..] == Lower(s[1..]);
      LowerKeepsSpace(s[0]);
      if IsSpace(s[0]) {
        TrimLeftLower(s[1..]);
      }
    }
  }

  lemma {:induction false} LowerSplit(s: string)
    requires s != []
    ensures Lower(s) == Lower(s[..|s| - 1]) + [LowerChar(s[|s| - 1])]
  {
    if |s| > 1 {
      LowerSplit(s[1..]);
      assert s[1..][..|s| - 2] == s[..|s| - 1][1..];
    }
  }

  lemma {:induction false} TrimRightLower(s: string)
    ensures TrimRight(Lower(s)) == Lower(TrimRight(s))
  {
    if s != [] {
      var t := Lower(s);
      LowerSplit(s);
      assert t[..|t| - 1] == Lower(s[..|s| - 1]) && t[|t| - 1] == LowerChar(s[|s| - 1]);
      LowerKeepsSpace(s[|s| - 1]);
      if IsSpace(s[|s| - 1]) {
        TrimRightLower(s[..|s| - 1]);
      }
    }
  }

  /** Upper- and lower-case spellings of a flag read the same. */
  lemma ConvertIgnoresCase(raw: string)
    ensures ConvertToBinary(Lower(raw)) == ConvertToBinary(raw)
  {
    TrimLeftLower(raw);
    TrimRightLower(TrimLeft(raw));
    UpperLower(Strip(raw));
  }

  /** The group labels of the source: 'A', 'B', 'C' and 'Unknown'. */
  datatype Group = A | B | C | Unknown

  /**
   * `assign_group`: A beats B beats C; a farm with none of the three flags
   * set is 'Unknown'.
   */
  function AssignGroup(groupA: int, groupB: int, groupC: int): (g: Group)
    ensures g == A <==> groupA == 1
    ensures g == B <==> groupA != 1 && groupB == 1
    ensures g == C <==> groupA != 1 && groupB != 1 && groupC == 1
    ensures g == Unknown <==> groupA != 1 && groupB != 1 && groupC != 1
  {
    if groupA == 1 then A
    else if groupB == 1 then B
    else if groupC == 1 then C
    else Unknown
  }
}
