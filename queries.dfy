/**
 The two read-only views of the server: a user's transaction history,
 newest first, and the list of transfer targets, every user but the
 requester in username order.
 */
module Queries {
  import opened Ledger

  /** The requester took part in the transaction: `Q(sender=user) | Q(receiver=user)`. */
  predicate Involves(t: Txn, user: Username) {
    t.sender == user || t.receiver == user
  }

  /** The transactions involving `user`, each row kept as often as it occurs, in table order. */
  function Involving(txns: seq<Txn>, user: Username): (r: seq<Txn>)
    ensures forall t :: multiset(r)[t] == if Involves(t, user) then multiset(txns)[t] else 0
  {
    if txns == [] then []
    else
      assert txns == [txns[0]] + txns[1..];
      (if Involves(txns[0], user) then [txns[0]] else []) + Involving(txns[1..], user)
  }

  /** `order_by('-timestamp')`: timestamps never increase along the sequence. */
  predicate NewestFirst(s: seq<Txn>) {
    forall i :: 0 < i < |s| ==> s[i - 1].timestamp >= s[i].timestamp
  }

  function InsertByTime(t: Txn, s: seq<Txn>): (r: seq<Txn>)
    requires NewestFirst(s)
    ensures NewestFirst(r)
    ensures multiset(r) == multiset(s) + multiset{t}
    ensures r != [] && (r[0] == t || (s != [] && r[0] == s[0]))
  {
    if s == [] || t.timestamp >= s[0].timestamp then
      ConsNewestFirst(t, s);
      [t] + s
    else
      assert s == [s[0]] + s[1..];
      var rest := InsertByTime(t, s[1..]);
      ConsNewestFirst(s[0], rest);
      [s[0]] + rest
  }

  /** A row no older than the head of a newest-first list can go in front of it. */
  lemma ConsNewestFirst(h: Txn, t: seq<Txn>)
    requires NewestFirst(t) && (t == [] || h.timestamp >= t[0].timestamp)
    ensures NewestFirst([h] + t)
  {
    var r := [h] + t;
    forall i | 0 < i < |r| ensures r[i - 1].timestamp >= r[i].timestamp {
      if i > 1 {
        assert r[i - 1] == t[i - 2] && r[i] == t[i - 1];
      }
    }
  }

  function SortNewestFirst(s: seq<Txn>): (r: seq<Txn>)
    ensures NewestFirst(r)
    ensures multiset(r) == multiset(s)
  {
    if s == [] then []
    else
      assert s == [s[0]] + s[1..];
      InsertByTime(s[0], SortNewestFirst(s[1..]))
  }

  /** `TransactionHistoryView.get`: the requester's transactions, newest first. */
  function History(txns: seq<Txn>, user: Username): (r: seq<Txn>)
    ensures NewestFirst(r)
    ensures forall t :: multiset(r)[t] == if Involves(t, user) then multiset(txns)[t] else 0
  {
    SortNewestFirst(Involving(txns, user))
  }

  /** Adjacent order extends to every pair: no later row is newer than an earlier one. */
  lemma {:induction false} NewestFirstPairwise(s: seq<Txn>, i: int, j: int)
    requires NewestFirst(s) && 0 <= i <= j < |s|
    ensures s[i].timestamp >= s[j].timestamp
    decreases j - i
  {
    if i < j {
      NewestFirstPairwise(s, i, j - 1);
    }
  }

  /** A transaction is listed exactly when it is in the table and involves the requester. */
  lemma HistoryMembers(txns: seq<Txn>, user: Username, t: Txn)
    ensures t in History(txns, user) <==> t in txns && Involves(t, user)
  {
    assert t in History(txns, user) <==> t in multiset(History(txns, user));
    assert t in txns <==> t in multiset(txns);
  }

  /** Code-point lexicographic order on usernames (`order_by('username')`). */
  predicate LexLe(a: string, b: string)
    decreases |a|
  {
    a == [] || (b != [] && (a[0] < b[0] || (a[0] == b[0] && LexLe(a[1..], b[1..]))))
  }

  lemma {:induction false} LexTotal(a: string, b: string)
    ensures LexLe(a, b) || LexLe(b, a)
    decreases |a|
  {
    if a != [] && b != [] && a[0] == b[0] {
      LexTotal(a[1..], b[1..]);
    }
  }

  lemma {:induction false} LexTransitive(a: string, b: string, c: string)
    requires LexLe(a, b) && LexLe(b, c)
    ensures LexLe(a, c)
    decreases |a|
  {
    if a != [] && a[0] == b[0] && b[0] == c[0] {
      LexTransitive(a[1..], b[1..], c[1..]);
    }
  }

  predicate NamesAscending(s: seq<Username>) {
    forall i :: 0 < i < |s| ==> LexLe(s[i - 1], s[i])
  }

  function InsertName(x: Username, s: seq<Username>): (r: seq<Username>)
    requires NamesAscending(s)
    ensures NamesAscending(r)
    ensures multiset(r) == multiset(s) + multiset{x}
    ensures r != [] && (r[0] == x || (s != [] && r[0] == s[0]))
  {
    if s == [] || LexLe(x, s[0]) then
      ConsAscending(x, s);
      [x] + s
    else
      LexTotal(x, s[0]);
      assert s == [s[0]] + s[1..];
      var t := InsertName(x, s[1..]);
      ConsAscending(s[0], t);
      [s[0]] + t
  }

  /** A name no greater than the head of an ascending list can go in front of it. */
  lemma ConsAscending(h: Username, t: seq<Username>)
    requires NamesAscending(t) && (t == [] || LexLe(h, t[0]))
    ensures NamesAscending([h] + t)
  {
    var r := [h] + t;
    forall i | 0 < i < |r| ensures LexLe(r[i - 1], r[i]) {
      if i > 1 {
        assert r[i - 1] == t[i - 2] && r[i] == t[i - 1];
      }
    }
  }

  function SortNames(s: seq<Username>): (r: seq<Username>)
    ensures NamesAscending(r)
    ensures multiset(r) == multiset(s)
  {
    if s == [] then []
    else
      assert s == [s[0]] + s[1..];
      InsertName(s[0], SortNames(s[1..]))
  }

  function Without(users: seq<Username>, me: Username): (r: seq<Username>)
    ensures forall x :: multiset(r)[x] == if x == me then 0 else multiset(users)[x]
  {
    if users == [] then []
    else
      assert users == [users[0]] + users[1..];
      (if users[0] == me then [] else [users[0]]) + Without(users[1..], me)
  }

  /** `UserListView.get`: every user except the requester, ordered by username. */
  function UserList(users: seq<Username>, me: Username): (r: seq<Username>)
    ensures NamesAscending(r)
    ensures forall x :: multiset(r)[x] == if x == me then 0 else multiset(users)[x]
  {
    SortNames(Without(users, me))
  }

  /** Adjacent order extends to every pair. */
  lemma {:induction false} AscendingPairwise(s: seq<Username>, i: int, j: int)
    requires NamesAscending(s) && 0 <= i <= j < |s|
    ensures LexLe(s[i], s[j])
    decreases j - i
  {
    if i == j {
      LexReflexive(s[i]);
    } else {
      AscendingPairwise(s, i, j - 1);
      LexTransitive(s[i], s[j - 1], s[j]);
    }
  }

  lemma {:induction false} LexReflexive(a: string)
    ensures LexLe(a, a)
    decreases |a|
  {
    if a != [] {
      LexReflexive(a[1..]);
    }
  }

  /**
   With unique usernames, the list holds every other user exactly once, in
   strictly ascending order, and never the requester.
   */
  lemma UserListEachOnce(users: seq<Username>, me: Username)
    requires Distinct(users)
    ensures var r := UserList(users, me);
      && (forall x :: x in r <==> x in users && x != me)
      && (forall i, j :: 0 <= i < j < |r| ==> LexLe(r[i], r[j]) && r[i] != r[j])
  {
    var r := UserList(users, me);
    forall x ensures x in r <==> x in users && x != me {
      assert x in r <==> x in multiset(r);
      assert x in users <==> x in multiset(users);
    }
    forall x | x in users ensures multiset(users)[x] == 1 {
      DistinctCountsOnce(users, x);
    }
    forall i, j | 0 <= i < j < |r| ensures LexLe(r[i], r[j]) && r[i] != r[j] {
      AscendingPairwise(r, i, j);
      if r[i] == r[j] {
        TwoIndicesCountTwice(r, i, j);
        assert false;
      }
    }
  }

  lemma {:induction false} DistinctCountsOnce(s: seq<Username>, x: Username)
    requires Distinct(s) && x in s
    ensures multiset(s)[x] == 1
  {
    assert s == [s[0]] + s[1..];
    if s[0] == x {
      assert x !in s[1..];
    } else {
      DistinctCountsOnce(s[1..], x);
    }
  }

  lemma {:induction false} TwoIndicesCountTwice(s: seq<Username>, i: int, j: int)
    requires 0 <= i < j < |s| && s[i] == s[j]
    ensures multiset(s)[s[i]] >= 2
  {
    assert s == s[..j] + [s[j]] + s[j + 1..];
    assert s[i] in s[..j];
  }
}
