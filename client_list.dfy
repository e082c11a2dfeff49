/** The client list of the clients page (frontend/src/components/ClientList.jsx): the
    case-insensitive search over the farmers' full names. */
module ClientList {
  import opened Common
  import Models
  import Views

  /** A client with its first and last name, the keys the client form posts. */
  datatype Client = Client(id: string, firstName: string, lastName: string)

  /** `toLowerCase` on one character; only the ASCII capitals are mapped. */
  function LowerChar(c: char): (r: char)
    ensures 'A' <= c <= 'Z' ==> r as int == c as int + 32
    ensures !('A' <= c <= 'Z') ==> r == c
    ensures !('A' <= r <= 'Z')
  {
    if 'A' <= c <= 'Z' then (c as int + 32) as char else c
  }

  /** `toLowerCase` on text, character by character. */
  function Lower(s: string): (r: string)
    ensures |r| == |s|
    ensures forall i :: 0 <= i < |s| ==> r[i] == LowerChar(s[i])
  {
    seq(|s|, i requires 0 <= i < |s| => LowerChar(s[i]))
  }

  /** Text without capitals is its own lower case. */
  lemma LowerNoCapitals(s: string)
    requires forall i :: 0 <= i < |s| ==> !('A' <= s[i] <= 'Z')
    ensures Lower(s) == s
  {
  }

  /** Lowering twice is lowering once. */
  lemma LowerIdempotent(s: string)
    ensures Lower(Lower(s)) == Lower(s)
  {
  }

  /** `sub` occurs in `s` at offset `i`. */
  predicate OccursAt(s: string, sub: string, i: int) {
    0 <= i && i + |sub| <= |s| && s[i..i + |sub|] == sub
  }

  /** `s.includes(sub)`, by trying each offset in turn. */
  function Contains(s: string, sub: string): (r: bool)
    ensures r <==> exists i :: OccursAt(s, sub, i)
    decreases |s|
  {
    if |sub| <= |s| && s[..|sub|] == sub then
      assert OccursAt(s, sub, 0);
      true
    else if s == [] then
      assert forall i :: !OccursAt(s, sub, i);
      false
    else
      ShiftOccurrences(s, sub);
      assert !OccursAt(s, sub, 0);
      var r := Contains(s[1..], sub);
      if r then
        var i :| OccursAt(s[1..], sub, i);
        assert OccursAt(s, sub, i + 1);
        true
      else
        false
  }

  /** Past the first character, the occurrences in `s` are those in its tail, one further on. */
  lemma ShiftOccurrences(s: string, sub: string)
    requires s != []
    ensures forall i :: 1 <= i ==> (OccursAt(s, sub, i) <==> OccursAt(s[1..], sub, i - 1))
  {
    forall i | 1 <= i
      ensures OccursAt(s, sub, i) <==> OccursAt(s[1..], sub, i - 1)
    {
      if i + |sub| <= |s| {
        assert s[i..i + |sub|] == s[1..][i - 1..i - 1 + |sub|];
      }
    }
  }

  /** A query holding a character the text lacks does not occur in it. */
  lemma MissingCharNotContained(s: string, sub: string, k: nat)
    requires k < |sub|
    ensures sub[k] !in s ==> !Contains(s, sub)
  {
    forall i | OccursAt(s, sub, i)
      ensures sub[k] in s
    {
      assert s[i..i + |sub|][k] == s[i + k];
    }
  }

  /** The text a client is searched by: first name, a space, last name. */
  function SearchText(c: Client): string {
    c.firstName + " " + c.lastName
  }

  predicate Matches(query: string, c: Client) {
    Contains(Lower(SearchText(c)), Lower(query))
  }

  /** The listed clients: those whose lower-cased full name contains the lower-cased query,
      in the order given. */
  function Shown(clients: seq<Client>, query: string): (r: seq<Client>)
    ensures forall c :: c in r <==> c in clients && Matches(query, c)
    ensures forall c :: c in clients && Matches(query, c) ==> multiset(r)[c] == multiset(clients)[c]
    ensures IsSubsequence(r, clients)
  {
    FilterIsSubsequence(clients, (c: Client) => Matches(query, c));
    FilterCounts(clients, (c: Client) => Matches(query, c));
    Filter(clients, (c: Client) => Matches(query, c))
  }

  // ---------------------------------------------------------------------------------------
  // The search as written, over the farmer list's objects

  /** `${client.farmer_fname} ${client.farmer_lname}`, lower-cased, contains the lower-cased
      query. */
  predicate MatchesAsWritten(query: string, client: JsonObject) {
    Contains(Lower(FarmerFullName(client)), Lower(query))
  }

  /** The listed clients as written: the farmer objects whose name text matches, in order. */
  function ShownAsWritten(clients: seq<JsonObject>, query: string): (r: seq<JsonObject>)
    ensures forall c :: c in r <==> c in clients && MatchesAsWritten(query, c)
    ensures forall c :: c in clients && MatchesAsWritten(query, c) ==> multiset(r)[c] == multiset(clients)[c]
    ensures IsSubsequence(r, clients)
  {
    FilterIsSubsequence(clients, (c: JsonObject) => MatchesAsWritten(query, c));
    FilterCounts(clients, (c: JsonObject) => MatchesAsWritten(query, c));
    Filter(clients, (c: JsonObject) => MatchesAsWritten(query, c))
  }

  const UndefinedName := "undefined undefined"

  /** The farmer list sends no name keys, so every client is searched by
      "undefined undefined": a query found in that text lists every client, any other lists
      none, whatever the farmers are called. */
  lemma SerializedClientsAllOrNothing(t: Models.Tables, user: Id, query: string)
    ensures Contains(UndefinedName, Lower(query)) ==>
      ShownAsWritten(Views.FarmerListResponse(t, user), query) == Views.FarmerListResponse(t, user)
    ensures !Contains(UndefinedName, Lower(query)) ==>
      ShownAsWritten(Views.FarmerListResponse(t, user), query) == []
  {
    var clients := Views.FarmerListResponse(t, user);
    LowerNoCapitals(UndefinedName);
    forall c | c in clients
      ensures MatchesAsWritten(query, c) == Contains(UndefinedName, Lower(query))
    {
      var i :| 0 <= i < |clients| && clients[i] == c;
      Views.SerializedFarmerUnnamed(Views.FarmerQuery(t, user)[i]);
    }
    if Contains(UndefinedName, Lower(query)) {
      FilterKeepsAll(clients, (c: JsonObject) => MatchesAsWritten(query, c));
    } else {
      FilterDropsAll(clients, (c: JsonObject) => MatchesAsWritten(query, c));
    }
  }

  /** A query with a letter that "undefined undefined" lacks lists no client. */
  lemma ForeignLetterFindsNobody(t: Models.Tables, user: Id, query: string, k: nat)
    requires k < |query| && LowerChar(query[k]) !in UndefinedName
    ensures ShownAsWritten(Views.FarmerListResponse(t, user), query) == []
  {
    MissingCharNotContained(UndefinedName, Lower(query), k);
    SerializedClientsAllOrNothing(t, user, query);
  }

  /** Searching for "Smith" lists no client, even one called Smith. */
  lemma SmithFindsNobody(t: Models.Tables, user: Id)
    ensures ShownAsWritten(Views.FarmerListResponse(t, user), "Smith") == []
  {
    ForeignLetterFindsNobody(t, user, "Smith", 0);
  }

  /** Searching for "undef" lists every client. */
  lemma UndefFindsEveryone(t: Models.Tables, user: Id)
    ensures ShownAsWritten(Views.FarmerListResponse(t, user), "undef") == Views.FarmerListResponse(t, user)
  {
    LowerNoCapitals("undef");
    assert OccursAt(UndefinedName, "undef", 0);
    SerializedClientsAllOrNothing(t, user, "undef");
  }

  /** With both name keys present, as the client form posts them, the as-written search is
      the search over the names. */
  lemma NamedClientMatches(client: JsonObject, query: string)
    requires Lookup(client, "farmer_fname").Scalar? && Lookup(client, "farmer_lname").Scalar?
    ensures MatchesAsWritten(query, client)
        <==> Matches(query, Client(TemplateText(Lookup(client, "id")),
                                   client["farmer_fname"].raw, client["farmer_lname"].raw))
  {
  }

  /** An empty query lists every client. */
  lemma {:induction false} EmptyQueryShowsAll(clients: seq<Client>)
    ensures Shown(clients, "") == clients
  {
    if clients != [] {
      EmptyQueryShowsAll(clients[1..]);
      assert OccursAt(Lower(SearchText(clients[0])), Lower(""), 0);
      assert [clients[0]] + clients[1..] == clients;
    }
  }

  /** Two queries that differ only in letter case list the same clients. */
  lemma {:induction false} QueryCaseIgnored(clients: seq<Client>, q1: string, q2: string)
    requires Lower(q1) == Lower(q2)
    ensures Shown(clients, q1) == Shown(clients, q2)
  {
    if clients != [] {
      QueryCaseIgnored(clients[1..], q1, q2);
      assert Matches(q1, clients[0]) == Matches(q2, clients[0]);
    }
  }

  /** Upper-case letters of the query match lower-case letters of a name. */
  lemma QueryLowered(clients: seq<Client>, q: string)
    ensures Shown(clients, Lower(q)) == Shown(clients, q)
  {
    LowerIdempotent(q);
    QueryCaseIgnored(clients, Lower(q), q);
  }

  datatype Screen = NoClients | Listing(shown: seq<Client>)

  const NoClientsMessage := "No clients found. Add a new client to get started."

  /** The rendered list: the message when there are no clients at all, otherwise the matches
      (possibly none). */
  function Render(clients: seq<Client>, query: string): (v: Screen)
    ensures v.NoClients? <==> clients == []
    ensures v.Listing? ==> v.shown == Shown(clients, query)
  {
    if clients == [] then NoClients else Listing(Shown(clients, query))
  }

  /** Without clients the message shows whatever the query. */
  lemma NoClientsWhateverQuery(q1: string, q2: string)
    ensures Render([], q1) == Render([], q2) == NoClients
  {
  }
}
