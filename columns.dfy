/**
 * Header lookup (`find_column`, App.py:85-90): the first column, in column
 * order, whose lower-cased name contains some lower-cased keyword, or the
 * caller's default when none does.
 */
module Columns {
  import opened Wrappers
  import opened Text

  /** `any(kw.lower() in col.lower() for kw in keywords)` */
  predicate MatchesAny(col: string, keywords: seq<string>) {
    exists k | 0 <= k < |keywords| :: Contains(Lower(col), Lower(keywords[k]))
  }

  /** `[col for col in columns if ...]`: the matching columns, in order. */
  function MatchingColumns(columns: seq<string>, keywords: seq<string>): (r: seq<string>)
    ensures forall c :: c in r <==> c in columns && MatchesAny(c, keywords)
    ensures |r| > 0 ==> r[0] in columns
  {
    if columns == [] then []
    else if MatchesAny(columns[0], keywords) then [columns[0]] + MatchingColumns(columns[1..], keywords)
    else MatchingColumns(columns[1..], keywords)
  }

  function FindColumn(columns: seq<string>, keywords: seq<string>, default: Option<string>): (r: Option<string>)
    ensures r != default ==> r.Some? && r.value in columns && MatchesAny(r.value, keywords)
  {
    var cols := MatchingColumns(columns, keywords);
    if |cols| > 0 then Some(cols[0]) else default
  }

  /**
   * `find_column` picks the matching column with the smallest index, and
   * falls back to the default exactly when no column matches.
   */
  lemma {:induction false} FindColumnFirstMatch(columns: seq<string>, keywords: seq<string>, default: Option<string>)
    ensures var r := FindColumn(columns, keywords, default);
      || (exists i :: 0 <= i < |columns| && r == Some(columns[i]) && MatchesAny(columns[i], keywords)
            && forall j :: 0 <= j < i ==> !MatchesAny(columns[j], keywords))
      || (r == default && forall j :: 0 <= j < |columns| ==> !MatchesAny(columns[j], keywords))
  {
    if columns != [] {
      FindColumnFirstMatch(columns[1..], keywords, default);
      if !MatchesAny(columns[0], keywords) {
        var r := FindColumn(columns[1..], keywords, default);
        assert FindColumn(columns, keywords, default) == r;
        if exists i :: 0 <= i < |columns[1..]| && r == Some(columns[1..][i]) && MatchesAny(columns[1..][i], keywords)
            && forall j :: 0 <= j < i ==> !MatchesAny(columns[1..][j], keywords) {
          var i :| 0 <= i < |columns[1..]| && r == Some(columns[1..][i]) && MatchesAny(columns[1..][i], keywords)
            && forall j :: 0 <= j < i ==> !MatchesAny(columns[1..][j], keywords);
          assert r == Some(columns[i + 1]);
          forall j | 0 <= j < i + 1 ensures !MatchesAny(columns[j], keywords) {
            if j > 0 { assert columns[j] == columns[1..][j - 1]; }
          }
        } else {
          forall j | 0 <= j < |columns| ensures !MatchesAny(columns[j], keywords) {
            if j > 0 { assert columns[j] == columns[1..][j - 1]; }
          }
        }
      }
    }
  }
}
