/** The registry's contents as a value: an ordered sequence of animals, with
    the lookups and the listing that the manager performs on it, and the
    messages it shows. The manager class in module Zoo keeps such a sequence
    and is specified by these functions. */
module Registry {
  import opened Wrappers
  import opened Text
  import opened Animals

  const AddedPrefix := "Животное "
  const AddedSuffix := " успешно добавлено!"
  const NoAnimals := "В зоопарке пока нет животных."
  const ListHeader := "\n--- Список всех животных ---"
  const IndexNotFound := "Животное с таким индексом не найдено."
  const NameNotFound := "Животное с такой кличкой не найдено."

  // ---------------------------------------------------------------------------
  // Lookup by position
  // ---------------------------------------------------------------------------

  /** The animal at zero-based position `index`, if there is one. */
  function At(s: seq<Animal>, index: int): (r: Option<Animal>)
    ensures r.Some? <==> 0 <= index < |s|
    ensures r.Some? ==> r.value == s[index]
  {
    if 0 <= index < |s| then Some(s[index]) else None
  }

  /** Appending answers the new last position with the new animal and leaves
      every other position's answer as it was. */
  lemma AtAppend(s: seq<Animal>, x: Animal, index: int)
    ensures At(s + [x], index) == if index == |s| then Some(x) else At(s, index)
  {
  }

  // ---------------------------------------------------------------------------
  // Lookup by name
  // ---------------------------------------------------------------------------

  /** The animal's name equals `query` ignoring case. */
  predicate NameMatches(a: Animal, query: string) {
    EqualsIgnoreCase(a.name, query)
  }

  /** Position `i` holds a match for `query` and no earlier position does. */
  predicate IsFirstMatch(s: seq<Animal>, query: string, i: int) {
    0 <= i < |s| && NameMatches(s[i], query)
    && forall j :: 0 <= j < i ==> !NameMatches(s[j], query)
  }

  /** No position holds a match for `query`. */
  predicate NoMatch(s: seq<Animal>, query: string) {
    forall j :: 0 <= j < |s| ==> !NameMatches(s[j], query)
  }

  /** The first position whose animal's name matches `query`, scanning in
      insertion order, as `List.Find` does. */
  function FindIndex(s: seq<Animal>, query: string): (r: Option<nat>)
    ensures r.Some? ==> IsFirstMatch(s, query, r.value)
    ensures r.None? <==> NoMatch(s, query)
    decreases |s|
  {
    if |s| == 0 then None
    else if NameMatches(s[0], query) then Some(0)
    else match FindIndex(s[1..], query)
      case None => None
      case Some(k) => Some(k + 1)
  }

  /** There is at most one first match. */
  lemma FirstMatchUnique(s: seq<Animal>, query: string, i: int, j: int)
    requires IsFirstMatch(s, query, i) && IsFirstMatch(s, query, j)
    ensures i == j
  {
  }

  /** The search finds `i` exactly when `i` is the first match. */
  lemma FindIndexIff(s: seq<Animal>, query: string, i: int)
    ensures FindIndex(s, query) == Some(i) <==> IsFirstMatch(s, query, i)
  {
    var r := FindIndex(s, query);
    if IsFirstMatch(s, query, i) {
      assert !NoMatch(s, query);
      FirstMatchUnique(s, query, i, r.value);
    }
  }

  /** Two queries that are equal ignoring case find the same position. */
  lemma FindIndexIgnoresCase(s: seq<Animal>, q1: string, q2: string)
    requires EqualsIgnoreCase(q1, q2)
    ensures FindIndex(s, q1) == FindIndex(s, q2)
  {
    assert forall a :: NameMatches(a, q1) <==> NameMatches(a, q2);
    var r1, r2 := FindIndex(s, q1), FindIndex(s, q2);
    if r1.Some? {
      FindIndexIff(s, q2, r1.value);
    } else {
      assert NoMatch(s, q2);
    }
  }

  /** The search depends only on the case-folded query. */
  lemma FindIndexByFold(s: seq<Animal>, query: string)
    ensures FindIndex(s, query) == FindIndex(s, Lower(query))
  {
    EqualsOwnFold(query);
    FindIndexIgnoresCase(s, query, Lower(query));
  }

  /** After an append, an earlier match still wins; otherwise the new animal
      is found when it matches. */
  lemma FindIndexAppend(s: seq<Animal>, x: Animal, query: string)
    ensures FindIndex(s + [x], query) ==
            if FindIndex(s, query).Some? then FindIndex(s, query)
            else if NameMatches(x, query) then Some(|s|)
            else None
  {
    var t := s + [x];
    var r := FindIndex(s, query);
    if r.Some? {
      FindIndexIff(t, query, r.value);
    } else if NameMatches(x, query) {
      assert IsFirstMatch(t, query, |s|);
      FindIndexIff(t, query, |s|);
    } else {
      assert NoMatch(t, query);
    }
  }

  /** Adding an animal whose name is already present keeps both: every earlier
      match is still in place, the new one is last, and the search still
      answers with the earliest. */
  lemma DuplicateNameKept(s: seq<Animal>, x: Animal)
    requires !NoMatch(s, x.name)
    ensures forall i :: 0 <= i < |s| + 1 ==>
              (NameMatches((s + [x])[i], x.name) <==> i == |s| || NameMatches(s[i], x.name))
    ensures FindIndex(s + [x], x.name) == FindIndex(s, x.name)
    ensures FindIndex(s, x.name).Some? && FindIndex(s, x.name).value < |s|
  {
    assert NameMatches(x, x.name);
    FindIndexAppend(s, x, x.name);
  }

  // ---------------------------------------------------------------------------
  // Listing
  // ---------------------------------------------------------------------------

  /** The listing line for the animal at zero-based position `i`: its number
      counted from one, a dot, and its description. */
  function EntryLine(i: nat, a: Animal, describe: Animal -> string): string {
    IntToString(i + 1) + ". " + describe(a)
  }

  /** The entries for the animals of `s`, one line each, in insertion order. */
  function Entries(s: seq<Animal>, describe: Animal -> string): (r: seq<string>)
    ensures |r| == |s|
  {
    if s == [] then []
    else Entries(s[..|s| - 1], describe) + [EntryLine(|s| - 1, s[|s| - 1], describe)]
  }

  /** The lines the full listing writes: the placeholder alone when there are
      no animals; otherwise a header, one entry per animal and a blank line. */
  function Listing(s: seq<Animal>, describe: Animal -> string): (lines: seq<string>)
    ensures |lines| == if s == [] then 1 else |s| + 2
  {
    if |s| == 0 then [NoAnimals] else [ListHeader] + Entries(s, describe) + [""]
  }

  /** Entry `k` of the entries is the line for the animal at position `k`. */
  lemma {:induction false} EntriesAt(s: seq<Animal>, describe: Animal -> string, k: nat)
    requires k < |s|
    ensures Entries(s, describe)[k] == EntryLine(k, s[k], describe)
    decreases |s|
  {
    if k < |s| - 1 {
      var init := s[..|s| - 1];
      EntriesAt(init, describe, k);
      assert init[k] == s[k];
    }
  }

  /** An empty registry lists only the placeholder; a non-empty one lists
      exactly one entry per animal, in insertion order, between the header
      and the blank line. */
  lemma ListingShape(s: seq<Animal>, describe: Animal -> string)
    ensures Listing(s, describe) == [NoAnimals] <==> s == []
    ensures s != [] ==>
      var lines := Listing(s, describe);
      |lines| == |s| + 2 && lines[0] == ListHeader && lines[|s| + 1] == ""
      && forall i :: 0 <= i < |s| ==> lines[i + 1] == EntryLine(i, s[i], describe)
  {
    if s != [] {
      var lines := Listing(s, describe);
      forall i | 0 <= i < |s| ensures lines[i + 1] == EntryLine(i, s[i], describe) {
        EntriesAt(s, describe, i);
      }
    }
  }

  /** An entry starts with its number; reading it back gives the position plus one. */
  lemma EntryNumber(i: nat, a: Animal, describe: Animal -> string)
    ensures var n := IntToString(i + 1);
      EntryLine(i, a, describe)[..|n|] == n && SignedValue(n) == i + 1
  {
    IntRoundTrip(i + 1);
  }

  /** Adding an animal to a non-empty registry keeps every earlier entry and
      puts the new entry, numbered one past the old count, before the blank line. */
  lemma ListingAppend(s: seq<Animal>, x: Animal, describe: Animal -> string)
    requires s != []
    ensures Listing(s + [x], describe)
            == Listing(s, describe)[..|s| + 1] + [EntryLine(|s|, x, describe), ""]
  {
    var t := s + [x];
    assert t[..|t| - 1] == s;
    var before := Listing(s, describe);
    assert before[..|s| + 1] == [ListHeader] + Entries(s, describe);
  }

  /** A found animal's description is never mistaken for a not-found message. */
  lemma InfoIsNotAMessage(a: Animal, showReal: real -> string)
    ensures Info(a, showReal) != IndexNotFound
    ensures Info(a, showReal) != NameNotFound
  {
    InfoShape(a, showReal);
    assert Info(a, showReal)[0] == 'К';
  }
}
