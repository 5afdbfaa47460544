/**
 * The portfolio search launcher (src/components/SearchLauncher.tsx): a
 * case-insensitive substring filter over names and bios, and the `open` /
 * `query` state driven by clicks and the keyboard.
 */
module SearchLauncher {
  import opened Wrappers
  import opened Types
  import opened Text
  import opened Lists

  /** A blank query matches everyone; otherwise the lower-cased query must occur in the lower-cased name or bio. */
  predicate Matches(query: string, p: Person) {
    Trim(query) == [] || Contains(Lower(p.name), Lower(query)) || Contains(Lower(p.bio), Lower(query))
  }

  /** `people.filter(...)`, the `filtered` list. */
  function Filter(people: seq<Person>, query: string): seq<Person> {
    if people == [] then []
    else (if Matches(query, people[0]) then [people[0]] else []) + Filter(people[1..], query)
  }

  /** The results keep the order of `people` and are exactly the matching people. */
  lemma {:induction false} FilterSpec(people: seq<Person>, query: string)
    ensures IsSubsequence(Filter(people, query), people)
    ensures forall p :: p in Filter(people, query) <==> p in people && Matches(query, p)
    ensures |Filter(people, query)| <= |people|
  {
    if people != [] {
      var rest := Filter(people[1..], query);
      FilterSpec(people[1..], query);
      assert forall p :: p in people <==> p == people[0] || p in people[1..];
      if Matches(query, people[0]) {
        assert Filter(people, query) == [people[0]] + rest;
        assert ([people[0]] + rest)[1..] == rest;
      } else {
        assert Filter(people, query) == rest;
        SubsequenceSkip(rest, people);
      }
    }
  }

  lemma {:induction false} SubsequenceSkip<T>(a: seq<T>, b: seq<T>)
    requires b != [] && IsSubsequence(a, b[1..])
    ensures IsSubsequence(a, b)
  {
  }

  /** A query that is blank after trimming lists every person, in the original order. */
  lemma {:induction false} FilterBlankQuery(people: seq<Person>, query: string)
    requires IsBlank(query)
    ensures Filter(people, query) == people
  {
    TrimEmptyIffBlank(query);
    if people != [] {
      FilterBlankQuery(people[1..], query);
      assert people == [people[0]] + people[1..];
    }
  }

  /** When exactly one person is listed, it is the one person of the list that matches. */
  lemma SingleResult(people: seq<Person>, query: string)
    requires |Filter(people, query)| == 1
    ensures Filter(people, query)[0] in people
    ensures forall p :: p in people && Matches(query, p) ==> p == Filter(people, query)[0]
  {
    FilterSpec(people, query);
    var r := Filter(people, query);
    forall p | p in people && Matches(query, p) ensures p == r[0] {
      assert p in r;
    }
  }

  class Launcher {
    const people: seq<Person>
    var open: bool
    var query: string

    constructor(people: seq<Person>)
      ensures this.people == people && !open && query == []
    {
      this.people := people;
      open, query := false, [];
    }

    /** The `filtered` list for the current query. */
    function Results(): seq<Person>
      reads this
    {
      Filter(people, query)
    }

    /** `openSearch`: shows the input with an empty query. */
    method OpenSearch()
      modifies this`open, this`query
      ensures open && query == []
    {
      open, query := true, [];
    }

    /** Typing into the search input. */
    method Type(text: string)
      modifies this`query
      ensures query == text
    {
      query := text;
    }

    /** The close button of the open launcher. */
    method CloseClick()
      modifies this`open, this`query
      ensures !open && query == []
    {
      open, query := false, [];
    }

    /** `openPerson`: hands the person to `onOpenPortfolio`, closes and clears. */
    method OpenPerson(person: Person) returns (launched: Person)
      modifies this`open, this`query
      ensures launched == person && !open && query == []
    {
      launched := person;
      open, query := false, [];
    }

    /** A click on the `i`-th listed result. */
    method ClickResult(i: nat) returns (launched: Person)
      requires i < |Results()|
      modifies this`open, this`query
      ensures launched == old(Results())[i] && !open && query == []
    {
      launched := OpenPerson(Results()[i]);
    }

    /**
     * The window keydown listener: ignored while closed; Escape closes and
     * clears; Enter opens the single result, and only when there is exactly one.
     */
    method KeyDown(key: string) returns (launched: Option<Person>)
      modifies this`open, this`query
      ensures !old(open) ==> launched == None && open == old(open) && query == old(query)
      ensures old(open) && key == "Escape" ==> launched == None && !open && query == []
      ensures old(open) && key == "Enter" && |old(Results())| == 1 ==>
        launched == Some(old(Results())[0]) && !open && query == []
      ensures old(open) && key == "Enter" && |old(Results())| != 1 ==>
        launched == None && open && query == old(query)
      ensures old(open) && key != "Escape" && key != "Enter" ==>
        launched == None && open && query == old(query)
    {
      launched := None;
      if !open {
        return;
      }
      var results := Results();
      if key == "Escape" {
        open, query := false, [];
      }
      if key == "Enter" && |results| == 1 {
        var p := OpenPerson(results[0]);
        launched := Some(p);
      }
    }
  }

  /** Enter on a query that matches exactly one person opens that person and nobody else. */
  method EnterOpensOnlyMatch(people: seq<Person>, text: string) returns (launched: Option<Person>)
    ensures launched.Some? <==> |Filter(people, text)| == 1
    ensures launched.Some? ==> launched.value in people && Matches(text, launched.value)
    ensures launched.Some? ==> forall p :: p in people && Matches(text, p) ==> p == launched.value
  {
    var l := new Launcher(people);
    l.OpenSearch();
    l.Type(text);
    launched := l.KeyDown("Enter");
    if launched.Some? {
      SingleResult(people, text);
      FilterSpec(people, text);
      assert launched.value in Filter(people, text);
    }
  }
}
