/**
  The catalogue search filter: a search string, edited by the search field,
  and a case-insensitive substring test on object names. Lower-casing
  (`ToLowerInvariant`) is the constant `lower`, an arbitrary function on
  strings; every case-insensitivity property below holds for any such function.
*/
module SearchCatalog {

  /** `sub` occurs in `s` starting at index `i`. */
  ghost predicate OccursAt(sub: string, s: string, i: int)
  {
    0 <= i <= |s| - |sub| && s[i..i + |sub|] == sub
  }

  /** `sub` occurs in `s` at some index. */
  ghost predicate Occurs(sub: string, s: string)
  {
    exists i :: OccursAt(sub, s, i)
  }

  /** `s.Contains(sub)`: try each start index from the left. */
  function Contains(s: string, sub: string): (r: bool)
    ensures r <==> Occurs(sub, s)
    decreases |s|
  {
    if |sub| > |s| then false
    else if s[..|sub|] == sub then
      assert OccursAt(sub, s, 0);
      true
    else
      var rest := Contains(s[1..], sub);
      assert rest <==> Occurs(sub, s) by {
        if Occurs(sub, s) {
          var i :| OccursAt(sub, s, i);
          assert i != 0;
          assert s[1..][i - 1..i - 1 + |sub|] == sub;
          assert OccursAt(sub, s[1..], i - 1);
        }
        if rest {
          var i :| OccursAt(sub, s[1..], i);
          assert s[i + 1..i + 1 + |sub|] == sub;
          assert OccursAt(sub, s, i + 1);
        }
      }
      rest
  }

  /** `Check` for lower-casing `lower` and search string `search`. */
  function Matches(lower: string -> string, search: string, v: string): (r: bool)
    ensures r <==> v != "" && Occurs(lower(search), lower(v))
  {
    v != "" && Contains(lower(v), lower(search))
  }

  /** The case of either side does not matter: only the lower-cased strings are compared. */
  lemma MatchesIgnoresCase(lower: string -> string, search: string, search': string, v: string, v': string)
    requires lower(search) == lower(search') && lower(v) == lower(v')
    requires v != "" && v' != ""
    ensures Matches(lower, search, v) == Matches(lower, search', v')
  {
  }

  /** An empty search string accepts every non-empty value (`"".ToLowerInvariant()` is `""`). */
  lemma EmptySearchAcceptsAll(lower: string -> string)
    requires lower("") == ""
    ensures forall v :: Matches(lower, "", v) <==> v != ""
  {
    forall v ensures Matches(lower, "", v) <==> v != "" {
      assert OccursAt("", lower(v), 0);
    }
  }

  class SearchCatalogModel {
    const lower: string -> string
    /** `SearchStringAsObservable.Value` */
    var searchString: string

    constructor (lower: string -> string)
      ensures this.lower == lower && searchString == "" && !NeedSearch()
    {
      this.lower := lower;
      searchString := "";
    }

    /** The search field pushes its text into the model. */
    method SetSearchString(s: string)
      modifies this
      ensures searchString == s
    {
      searchString := s;
    }

    /** `NeedSearch`: the search string is not empty. */
    predicate NeedSearch(): (b: bool)
      reads this
      ensures b <==> |searchString| > 0
      ensures !b && lower("") == "" ==> forall v :: Check(v) <==> v != ""
    {
      if lower("") == "" then EmptySearchAcceptsAll(lower); searchString != "" else searchString != ""
    }

    /** `Check`: a non-empty value whose lower-cased form contains the lower-cased search string. */
    predicate Check(v: string)
      reads this
      ensures Check(v) <==> v != "" && Occurs(lower(searchString), lower(v))
    {
      Matches(lower, searchString, v)
    }
  }
}
