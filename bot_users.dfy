/** The end-user list of one bot and its search box (src/pages/BotUsers.tsx). */
module BotUsers {
  import opened Common

  /** The per-bot interaction record; times are milliseconds since the epoch. */
  datatype BotInteraction = BotInteraction(messageCount: int, lastInteraction: int)

  /** Someone who talked to a bot. */
  datatype EndUser = EndUser(
    id: string,
    name: string,
    phoneNumber: Option<string>,
    email: Option<string>,
    lastInteraction: Option<int>,
    totalInteractions: int,
    botInteractions: map<string, BotInteraction>)

  /** JavaScript truthiness of an optional string: present and not empty. */
  predicate Present(field: Option<string>)
  {
    field.Some? && field.value != ""
  }

  /** The search predicate: the lower-cased name or e-mail contains the
      lower-cased term, or the phone number contains the term as typed. */
  predicate MatchesSearch(searchTerm: string, u: EndUser)
  {
    var term := ToLower(searchTerm);
    || Includes(ToLower(u.name), term)
    || (Present(u.email) && Includes(ToLower(u.email.value), term))
    || (Present(u.phoneNumber) && Includes(u.phoneNumber.value, searchTerm))
  }

  function SearchFilter(searchTerm: string): EndUser -> bool
  {
    u => MatchesSearch(searchTerm, u)
  }

  /** `filteredUsers`: the users matching the term, in their original order. */
  function FilteredUsers(users: seq<EndUser>, searchTerm: string): (r: seq<EndUser>)
    ensures |r| <= |users|
    ensures forall i :: 0 <= i < |r| ==> r[i] in users && MatchesSearch(searchTerm, r[i])
    ensures forall i :: 0 <= i < |users| && MatchesSearch(searchTerm, users[i]) ==> users[i] in r
  {
    Filter(users, SearchFilter(searchTerm))
  }

  /** The list keeps the page's order: filtering a concatenation filters
      each part. */
  lemma FilteredUsersKeepOrder(a: seq<EndUser>, b: seq<EndUser>, searchTerm: string)
    ensures FilteredUsers(a + b, searchTerm) == FilteredUsers(a, searchTerm) + FilteredUsers(b, searchTerm)
  {
    FilterAppend(a, b, SearchFilter(searchTerm));
  }

  /** An empty search box shows every user. */
  lemma EmptySearchShowsEveryone(users: seq<EndUser>)
    ensures FilteredUsers(users, "") == users
  {
    forall i | 0 <= i < |users| ensures SearchFilter("")(users[i]) {
      IncludesEmpty(ToLower(users[i].name));
    }
    FilterKeepsAll(users, SearchFilter(""));
  }

  /** Name and e-mail are matched without regard to case. */
  lemma SearchIgnoresCaseExceptPhone(searchTerm: string, u: EndUser)
    requires !Present(u.phoneNumber)
    ensures MatchesSearch(ToLower(searchTerm), u) <==> MatchesSearch(searchTerm, u)
  {
    ToLowerIdempotent(searchTerm);
  }

  /** A user without e-mail and phone is found by name only. */
  lemma NoContactMatchesByName(searchTerm: string, u: EndUser)
    requires !Present(u.email) && !Present(u.phoneNumber)
    ensures MatchesSearch(searchTerm, u) <==> Includes(ToLower(u.name), ToLower(searchTerm))
  {
  }

  /** Typing more characters only narrows the search: whoever matches the
      longer term also matches its prefix. */
  lemma TypingNarrows(searchTerm: string, more: string, u: EndUser)
    requires MatchesSearch(searchTerm + more, u)
    ensures MatchesSearch(searchTerm, u)
  {
    var long, short := ToLower(searchTerm + more), ToLower(searchTerm);
    ToLowerAppend(searchTerm, more);
    assert Includes(long, short) by { assert short <= long; }
    assert Includes(searchTerm + more, searchTerm) by { assert searchTerm <= searchTerm + more; }
    if Includes(ToLower(u.name), long) {
      IncludesTransitive(ToLower(u.name), long, short);
    } else if Present(u.email) && Includes(ToLower(u.email.value), long) {
      IncludesTransitive(ToLower(u.email.value), long, short);
    } else {
      IncludesTransitive(u.phoneNumber.value, searchTerm + more, searchTerm);
    }
  }

  /** The list for a longer term is contained in the list for its prefix. */
  lemma FilteredUsersNarrow(users: seq<EndUser>, searchTerm: string, more: string)
    ensures forall u :: u in FilteredUsers(users, searchTerm + more) ==> u in FilteredUsers(users, searchTerm)
  {
    forall u | u in FilteredUsers(users, searchTerm + more)
      ensures u in FilteredUsers(users, searchTerm)
    {
      var r := FilteredUsers(users, searchTerm + more);
      var i :| 0 <= i < |r| && r[i] == u;
      TypingNarrows(searchTerm, more, u);
      var k :| 0 <= k < |users| && users[k] == u;
    }
  }

  /** The message count shown for a user on the page of `botId`; a user
      with no record for that bot shows zero. */
  function MessageCount(u: EndUser, botId: string): (r: int)
    ensures botId !in u.botInteractions ==> r == 0
    ensures botId in u.botInteractions ==> r == u.botInteractions[botId].messageCount
  {
    if botId in u.botInteractions then u.botInteractions[botId].messageCount else 0
  }
}
