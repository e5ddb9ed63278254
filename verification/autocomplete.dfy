/**
 The username directory and the filter of the autocomplete endpoint
 (main.go:57-79): a fixed four-entry table, scanned in declaration order,
 keeping every entry whose username or email starts with the query.
 */
module Autocomplete {
  import opened Prefix

  /** One row of the directory: the `username` and `email` keys of the
      string map the handler builds. */
  datatype User = User(username: string, email: string)

  /** The directory, in the order the handler declares it. */
  const Directory: seq<User> := [
    User("johndoe", "johndoe@example.com"),
    User("janedoe", "janedoe@example.com"),
    User("johnsmith", "johnsmith@example.com"),
    User("janesmith", "janesmith@example.com")
  ]

  /** The loop's guard: a non-empty query that prefixes the username or the email. */
  predicate Matches(user: User, query: string)
    ensures Matches(user, query)
        <==> query != "" && (query <= user.username || query <= user.email)
  {
    ContainsIsPrefix(user.username, query);
    ContainsIsPrefix(user.email, query);
    query != "" && (Contains(user.username, query) || Contains(user.email, query))
  }

  /** No entry occurs twice. */
  predicate Distinct<T(==)>(s: seq<T>)
  {
    forall i, j :: 0 <= i < j < |s| ==> s[i] != s[j]
  }

  /** `a` can be obtained from `b` by deleting elements, without reordering. */
  ghost predicate Subsequence<T>(a: seq<T>, b: seq<T>)
    decreases |b|
  {
    |a| == 0 || (|b| > 0 && ((a[0] == b[0] && Subsequence(a[1..], b[1..])) || Subsequence(a, b[1..])))
  }

  /** The entries of `users` that match `query`, in their original order. */
  function Filter(users: seq<User>, query: string): (r: seq<User>)
    ensures forall u :: u in r <==> u in users && Matches(u, query)
    ensures |r| <= |users|
  {
    if |users| == 0 then []
    else if Matches(users[0], query) then [users[0]] + Filter(users[1..], query)
    else Filter(users[1..], query)
  }

  /** The handler's loop as written: walk the table and append each matching
      entry to the result slice. */
  method CollectMatches(users: seq<User>, query: string) returns (results: seq<User>)
    ensures results == Filter(users, query)
    ensures forall u :: u in results <==> u in users && Matches(u, query)
  {
    results := [];
    for i := 0 to |users|
      invariant results == Filter(users[..i], query)
    {
      FilterAppend(users[..i], users[i], query);
      assert users[..i + 1] == users[..i] + [users[i]];
      if query != "" && (Contains(users[i].username, query) || Contains(users[i].email, query)) {
        results := results + [users[i]];
      }
    }
    assert users[..|users|] == users;
  }

  /** Filtering a table extended by one entry extends the result by that
      entry exactly when it matches. */
  lemma {:induction false} FilterAppend(users: seq<User>, user: User, query: string)
    ensures Filter(users + [user], query)
         == Filter(users, query) + (if Matches(user, query) then [user] else [])
    decreases |users|
  {
    if |users| == 0 {
      assert users + [user] == [user];
    } else {
      assert (users + [user])[1..] == users[1..] + [user];
      FilterAppend(users[1..], user, query);
    }
  }

  /** The result never reorders the table: it is a subsequence of it. */
  lemma {:induction false} FilterIsSubsequence(users: seq<User>, query: string)
    ensures Subsequence(Filter(users, query), users)
    decreases |users|
  {
    if |users| > 0 {
      FilterIsSubsequence(users[1..], query);
      var r := Filter(users, query);
      if Matches(users[0], query) {
        assert r[0] == users[0] && r[1..] == Filter(users[1..], query);
      } else {
        if |r| > 0 {
          assert r == Filter(users[1..], query);
        }
      }
    }
  }

  /** A table without duplicates yields a result without duplicates. */
  lemma {:induction false} FilterKeepsDistinct(users: seq<User>, query: string)
    requires Distinct(users)
    ensures Distinct(Filter(users, query))
    decreases |users|
  {
    if |users| > 0 {
      assert Distinct(users[1..]) by {
        forall i, j | 0 <= i < j < |users| - 1
          ensures users[1..][i] != users[1..][j]
        {
          assert users[1..][i] == users[i + 1] && users[1..][j] == users[j + 1];
        }
      }
      FilterKeepsDistinct(users[1..], query);
      if Matches(users[0], query) {
        var rest := Filter(users[1..], query);
        assert users[0] !in users[1..] by {
          forall k | 0 <= k < |users| - 1
            ensures users[1..][k] != users[0]
          {
            assert users[1..][k] == users[k + 1];
          }
        }
        assert users[0] !in rest;
        var r := [users[0]] + rest;
        forall i, j | 0 <= i < j < |r|
          ensures r[i] != r[j]
        {
          if i == 0 {
            assert r[j] == rest[j - 1];
          } else {
            assert r[i] == rest[i - 1] && r[j] == rest[j - 1];
          }
        }
      }
    }
  }

  /** The empty query keeps nothing, whatever the table holds. */
  lemma EmptyQueryKeepsNothing(users: seq<User>)
    ensures Filter(users, "") == []
  {
  }

  /** Every entry whose username or email starts with a non-empty query
      is in the result, and nothing else is. */
  lemma FilterExact(users: seq<User>, query: string, user: User)
    requires query != ""
    ensures user in Filter(users, query)
        <==> user in users && (query <= user.username || query <= user.email)
  {
  }

  /** The directory holds the four users in declaration order, with no
      duplicate entries. */
  lemma DirectoryDistinct()
    ensures Distinct(Directory)
    ensures |Directory| == 4
    ensures [Directory[0].username, Directory[1].username, Directory[2].username, Directory[3].username]
         == ["johndoe", "janedoe", "johnsmith", "janesmith"]
    ensures forall u :: u in Directory ==> u.email == u.username + "@example.com"
  {
  }

  /** Filtering a four-entry table, one entry at a time. */
  lemma FilterFour(users: seq<User>, query: string)
    requires |users| == 4
    ensures Filter(users, query)
         == (if Matches(users[0], query) then [users[0]] else [])
          + (if Matches(users[1], query) then [users[1]] else [])
          + (if Matches(users[2], query) then [users[2]] else [])
          + (if Matches(users[3], query) then [users[3]] else [])
  {
    FilterAppend([], users[0], query);
    FilterAppend([users[0]], users[1], query);
    FilterAppend([users[0], users[1]], users[2], query);
    FilterAppend([users[0], users[1], users[2]], users[3], query);
    assert users == [users[0], users[1], users[2]] + [users[3]];
    assert [users[0], users[1], users[2]] == [users[0], users[1]] + [users[2]];
    assert [users[0], users[1]] == [users[0]] + [users[1]];
    assert [users[0]] == [] + [users[0]];
  }

  /** An entry is rejected once both its username and its email disagree
      with the query at some position. */
  lemma RejectedAt(user: User, query: string, i: nat, j: nat)
    requires i < |query| && (i >= |user.username| || user.username[i] != query[i])
    requires j < |query| && (j >= |user.email| || user.email[j] != query[j])
    ensures !Matches(user, query)
  {
    MismatchRejects(user.username, query, i);
    MismatchRejects(user.email, query, j);
  }

  /** Which directory entries the query "john" matches. */
  lemma JohnMatches()
    ensures Matches(Directory[0], "john") && !Matches(Directory[1], "john")
    ensures Matches(Directory[2], "john") && !Matches(Directory[3], "john")
  {
    AgreementAccepts(Directory[0].username, "john");
    AgreementAccepts(Directory[2].username, "john");
    RejectedAt(Directory[1], "john", 1, 1);
    RejectedAt(Directory[3], "john", 1, 1);
  }

  /** "john" picks the two John entries, in table order, and drops both Janes. */
  lemma JohnQuery()
    ensures Filter(Directory, "john") == [Directory[0], Directory[2]]
    ensures [Directory[0].username, Directory[2].username] == ["johndoe", "johnsmith"]
  {
    JohnMatches();
    FilterFour(Directory, "john");
  }

  /** The query "johndoe@" is longer than the username "johndoe" but
      prefixes its email. */
  lemma EmailOnlyFirst()
    ensures Matches(Directory[0], "johndoe@")
    ensures !Contains(Directory[0].username, "johndoe@")
  {
    AgreementAccepts(Directory[0].email, "johndoe@");
    MismatchRejects("johndoe", "johndoe@", 7);
  }

  /** The query "johndoe@" matches none of the other entries. */
  lemma EmailOnlyRest()
    ensures !Matches(Directory[1], "johndoe@")
    ensures !Matches(Directory[2], "johndoe@")
    ensures !Matches(Directory[3], "johndoe@")
  {
    RejectedAt(Directory[1], "johndoe@", 1, 1);
    RejectedAt(Directory[2], "johndoe@", 4, 4);
    RejectedAt(Directory[3], "johndoe@", 1, 1);
  }

  /** A query longer than the username can still match through the email. */
  lemma EmailOnlyQuery()
    ensures Filter(Directory, "johndoe@") == [Directory[0]]
    ensures !Contains(Directory[0].username, "johndoe@")
  {
    EmailOnlyFirst();
    EmailOnlyRest();
    FilterFour(Directory, "johndoe@");
  }

  /** Every email of the directory contains "example". */
  lemma EmailsContainExample()
    ensures forall u :: u in Directory ==> IsSubstring(u.email, "example")
  {
    assert OccursAt(Directory[0].email, "example", 8);
    assert OccursAt(Directory[1].email, "example", 8);
    assert OccursAt(Directory[2].email, "example", 10);
    assert OccursAt(Directory[3].email, "example", 10);
  }

  /** No entry starts with "example", although every email contains it
      (`EmailsContainExample`): the filter is a prefix match, not the
      substring match its helper's comment names. */
  lemma ExampleMatchesNothing()
    ensures Filter(Directory, "example") == []
  {
    RejectedAt(Directory[0], "example", 0, 0);
    RejectedAt(Directory[1], "example", 0, 0);
    RejectedAt(Directory[2], "example", 0, 0);
    RejectedAt(Directory[3], "example", 0, 0);
    FilterFour(Directory, "example");
  }
}
