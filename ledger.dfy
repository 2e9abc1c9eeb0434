/**
 The server's ledger: user accounts, their profiles' balances and the
 transaction table, with the transfer endpoint that moves money between
 two profiles inside one database transaction.
 Decimal amounts are modelled as integers (a number of the smallest unit).
 */
module Ledger {
  import opened Wrappers

  type Username = string

  const STATUS_SUCCESS: string := "SUCCESS"

  /** A row of the transaction table. */
  datatype Txn = Txn(sender: Username, receiver: Username, amount: int, timestamp: int, status: string)

  /** A request body the transfer serializer accepted. */
  datatype TransferRequest = TransferRequest(receiver_username: Username, amount: int)

  datatype Body = Message(text: string) | Error(text: string) | SerializerErrors

  datatype Response = Response(status: int, body: Body)

  /** Why a transfer is rejected, or that it is accepted; in the order the checks run. */
  datatype Verdict =
    | NotPositive          // amount <= 0
    | ToSelf               // receiver is the sender
    | SenderProfileMissing // UserProfile.DoesNotExist for the sender
    | NoSuchReceiver       // get_object_or_404 raises Http404, caught by the generic handler
    | ReceiverProfileMissing
    | InsufficientFunds
    | Accepted

  predicate Distinct(s: seq<Username>) {
    forall i, j :: 0 <= i < j < |s| ==> s[i] != s[j]
  }

  /** The decision the transfer view takes for a well-formed request. */
  function Judge(users: seq<Username>, balances: map<Username, int>, sender: Username, req: TransferRequest): (v: Verdict)
    ensures v == Accepted <==>
      && req.amount > 0
      && sender != req.receiver_username
      && sender in balances
      && req.receiver_username in users
      && req.receiver_username in balances
      && balances[sender] >= req.amount
    ensures req.amount <= 0 ==> v == NotPositive
    ensures req.amount > 0 && sender == req.receiver_username ==> v == ToSelf
    ensures req.amount > 0 && sender != req.receiver_username ==>
      && (sender !in balances ==> v == SenderProfileMissing)
      && (sender in balances && req.receiver_username !in users ==> v == NoSuchReceiver)
      && ((sender in balances && req.receiver_username in users && req.receiver_username !in balances) ==>
            v == ReceiverProfileMissing)
      && ((sender in balances && req.receiver_username in users && req.receiver_username in balances &&
           balances[sender] < req.amount) ==> v == InsufficientFunds)
    ensures v == InsufficientFunds ==> sender in balances && balances[sender] < req.amount
  {
    if req.amount <= 0 then NotPositive
    else if sender == req.receiver_username then ToSelf
    else if sender !in balances then SenderProfileMissing
    else if req.receiver_username !in users then NoSuchReceiver
    else if req.receiver_username !in balances then ReceiverProfileMissing
    else if balances[sender] < req.amount then InsufficientFunds
    else Accepted
  }

  /** The HTTP response for each verdict. */
  function Reply(v: Verdict): Response {
    match v
    case NotPositive => Response(400, Error("Amount must be positive"))
    case ToSelf => Response(400, Error("Cannot transfer to yourself"))
    case SenderProfileMissing => Response(400, Error("User profile error"))
    case NoSuchReceiver => Response(500, Error("Transfer failed"))
    case ReceiverProfileMissing => Response(400, Error("User profile error"))
    case InsufficientFunds => Response(400, Error("Insufficient funds"))
    case Accepted => Response(200, Message("Transfer successful"))
  }

  /** Only an accepted transfer answers 200. */
  lemma ReplySucceedsOnlyWhenAccepted(v: Verdict)
    ensures Reply(v).status == 200 <==> v == Accepted
    ensures v != Accepted ==> Reply(v).body.Error?
    ensures Reply(v).status == 500 <==> v == NoSuchReceiver
    ensures v != Accepted && v != NoSuchReceiver ==> Reply(v).status == 400
    ensures v == SenderProfileMissing || v == ReceiverProfileMissing <==> Reply(v).body == Error("User profile error")
  {
  }

  /**
   The answer to a well-formed transfer request, read off the request and
   the tables: which message and status each failed check produces, and
   that a covered transfer between two existing profiles succeeds, an exact
   balance included.
   */
  lemma TransferReplies(users: seq<Username>, balances: map<Username, int>, sender: Username, req: TransferRequest)
    ensures var resp, r := Reply(Judge(users, balances, sender, req)), req.receiver_username;
      && (req.amount <= 0 ==> resp == Response(400, Error("Amount must be positive")))
      && (req.amount > 0 && sender == r ==> resp == Response(400, Error("Cannot transfer to yourself")))
      && (req.amount > 0 && sender != r && sender !in balances ==> resp == Response(400, Error("User profile error")))
      && ((req.amount > 0 && sender != r && sender in balances && r !in users) ==>
            resp == Response(500, Error("Transfer failed")))
      && ((req.amount > 0 && sender != r && sender in balances && r in users && r !in balances) ==>
            resp == Response(400, Error("User profile error")))
      && ((req.amount > 0 && sender != r && sender in balances && r in users && r in balances &&
           balances[sender] < req.amount) ==> resp == Response(400, Error("Insufficient funds")))
      && ((req.amount > 0 && sender != r && sender in balances && r in users && r in balances &&
           balances[sender] >= req.amount) ==> resp == Response(200, Message("Transfer successful")))
  {
  }

  /** The balances after `amount` moves from `s` to `r`. */
  function Moved(m: map<Username, int>, s: Username, r: Username, amount: int): (m': map<Username, int>)
    requires s in m && r in m && s != r
    ensures m'.Keys == m.Keys
    ensures m'[s] == m[s] - amount && m'[r] == m[r] + amount
    ensures forall u :: u in m && u != s && u != r ==> m'[u] == m[u]
  {
    m[s := m[s] - amount][r := m[r] + amount]
  }

  /** The sum of all balances. */
  ghost function Total(m: map<Username, int>): int
    decreases |m|
  {
    if m == map[] then 0
    else
      var k :| k in m;
      assert (m - {k}).Keys == m.Keys - {k};
      m[k] + Total(m - {k})
  }

  ghost predicate NonNegative(m: map<Username, int>) {
    forall u :: u in m ==> m[u] >= 0
  }

  /** The sum splits off any one account, whichever one the definition happens to pick. */
  lemma {:induction false} TotalRemove(m: map<Username, int>, k: Username)
    requires k in m
    ensures Total(m) == m[k] + Total(m - {k})
    decreases |m|
  {
    var j :| j in m && Total(m) == m[j] + Total(m - {j});
    if j != k {
      assert (m - {j}).Keys == m.Keys - {j};
      TotalRemove(m - {j}, k);
      assert (m - {k}).Keys == m.Keys - {k};
      TotalRemove(m - {k}, j);
      assert m - {j} - {k} == m - {k} - {j};
    }
  }

  /**
   Two ledgers over the same accounts that agree everywhere except at `s`
   and `r` differ in sum by exactly the changes at those two accounts.
   */
  lemma TotalDiffersAtTwo(m: map<Username, int>, m': map<Username, int>, s: Username, r: Username)
    requires s in m && r in m && s != r && m'.Keys == m.Keys
    requires forall u :: u in m && u != s && u != r ==> m'[u] == m[u]
    ensures Total(m') == Total(m) + (m'[s] - m[s]) + (m'[r] - m[r])
  {
    TotalRemove(m, s);
    TotalRemove(m', s);
    var rest, rest' := m - {s}, m' - {s};
    assert r in rest && r in rest';
    TotalRemove(rest, r);
    TotalRemove(rest', r);
    SameOutsideTwo(m, m', s, r);
  }

  /** Ledgers that agree outside `s` and `r` are equal once those two accounts are dropped. */
  lemma SameOutsideTwo(m: map<Username, int>, m': map<Username, int>, s: Username, r: Username)
    requires m'.Keys == m.Keys
    requires forall u :: u in m && u != s && u != r ==> m'[u] == m[u]
    ensures m - {s} - {r} == m' - {s} - {r}
  {
  }

  /** A transfer between two accounts conserves the total amount of money. */
  lemma MovedConservesTotal(m: map<Username, int>, s: Username, r: Username, amount: int)
    requires s in m && r in m && s != r
    ensures Total(Moved(m, s, r, amount)) == Total(m)
  {
    TotalDiffersAtTwo(m, Moved(m, s, r, amount), s, r);
  }

  /** A covered transfer of a positive amount keeps every balance non-negative; paying the whole balance leaves 0. */
  lemma MovedKeepsNonNegative(m: map<Username, int>, s: Username, r: Username, amount: int)
    requires s in m && r in m && s != r
    requires NonNegative(m) && 0 < amount <= m[s]
    ensures NonNegative(Moved(m, s, r, amount))
    ensures amount == m[s] ==> Moved(m, s, r, amount)[s] == 0
  {
  }

  /**
   The database: the user table, each profile's balance keyed by its user,
   and the transaction table.
   */
  class Bank {
    var users: seq<Username>
    var balances: map<Username, int>
    var transactions: seq<Txn>

    /**
     Every profile belongs to a user, and every stored
     transaction is a successful transfer of a positive amount between two
     different users.
     */
    ghost predicate Valid()
      reads this
    {
      && (forall u :: u in balances ==> u in users)
      && (forall t :: t in transactions ==>
            t.amount > 0 && t.sender != t.receiver && t.status == STATUS_SUCCESS)
    }

    constructor (initialUsers: seq<Username>, initialBalances: map<Username, int>)
      requires forall u :: u in initialBalances ==> u in initialUsers
      ensures Valid()
      ensures users == initialUsers && balances == initialBalances && transactions == []
    {
      users := initialUsers;
      balances := initialBalances;
      transactions := [];
    }

    /**
     `TransferView.post` for the authenticated `sender`; `req` is None when
     the serializer rejects the body, and `now` is the creation timestamp.
     */
    method Transfer(sender: Username, req: Option<TransferRequest>, now: int) returns (resp: Response)
      requires Valid()
      modifies this
      ensures Valid()
      ensures users == old(users)
      ensures req.None? ==>
        resp == Response(400, SerializerErrors) && balances == old(balances) && transactions == old(transactions)
      ensures req.Some? ==> Judged(old(users), old(balances), old(transactions), sender, req.value, now, resp)
      ensures Total(balances) == Total(old(balances))
      ensures NonNegative(old(balances)) ==> NonNegative(balances)
    {
      if req.None? {
        return Response(400, SerializerErrors);
      }
      var receiver, amount := req.value.receiver_username, req.value.amount;
      if amount <= 0 {
        return Response(400, Error("Amount must be positive"));
      }
      if sender == receiver {
        return Response(400, Error("Cannot transfer to yourself"));
      }
      resp := Atomic(sender, receiver, amount, now);
    }

    /**
     The state after the view answered `resp` to `req`: the verdict's reply,
     and on acceptance the two balances moved and one SUCCESS row appended;
     on any rejection nothing changed.
     */
    ghost predicate Judged(users0: seq<Username>, balances0: map<Username, int>, transactions0: seq<Txn>,
                           sender: Username, req: TransferRequest, now: int, resp: Response)
      reads this
    {
      var v := Judge(users0, balances0, sender, req);
      && resp == Reply(v)
      && (v == Accepted ==>
            && balances == Moved(balances0, sender, req.receiver_username, req.amount)
            && transactions == transactions0 + [Txn(sender, req.receiver_username, req.amount, now, STATUS_SUCCESS)])
      && (v != Accepted ==> balances == balances0 && transactions == transactions0)
    }

    /**
     The `transaction.atomic()` block: every lookup and check runs before
     anything is written, so a raised exception leaves the tables as they were.
     */
    method Atomic(sender: Username, receiver: Username, amount: int, now: int) returns (resp: Response)
      requires Valid()
      requires amount > 0 && sender != receiver
      modifies this
      ensures Valid()
      ensures users == old(users)
      ensures Judged(old(users), old(balances), old(transactions), sender, TransferRequest(receiver, amount), now, resp)
      ensures Total(balances) == Total(old(balances))
      ensures NonNegative(old(balances)) ==> NonNegative(balances)
    {
      ghost var verdict := Judge(users, balances, sender, TransferRequest(receiver, amount));
      if sender !in balances {
        assert verdict == SenderProfileMissing;
        return Response(400, Error("User profile error"));
      }
      if receiver !in users {
        assert verdict == NoSuchReceiver;
        return Response(500, Error("Transfer failed"));
      }
      if receiver !in balances {
        assert verdict == ReceiverProfileMissing;
        return Response(400, Error("User profile error"));
      }
      if balances[sender] < amount {
        assert verdict == InsufficientFunds;
        return Response(400, Error("Insufficient funds"));
      }
      assert verdict == Accepted;
      Commit(sender, receiver, amount, now);
      resp := Response(200, Message("Transfer successful"));
    }

    /**
     The writes of an accepted transfer: debit the sender's profile, credit
     the receiver's, and record one SUCCESS row.
     */
    method Commit(sender: Username, receiver: Username, amount: int, now: int)
      requires Valid()
      requires sender in balances && receiver in balances && sender != receiver
      requires 0 < amount <= balances[sender]
      modifies this
      ensures Valid()
      ensures users == old(users)
      ensures balances == Moved(old(balances), sender, receiver, amount) && balances.Keys == old(balances).Keys
      ensures transactions == old(transactions) + [Txn(sender, receiver, amount, now, STATUS_SUCCESS)]
      ensures Total(balances) == Total(old(balances))
      ensures NonNegative(old(balances)) ==> NonNegative(balances)
    {
      MovedConservesTotal(balances, sender, receiver, amount);
      if NonNegative(balances) {
        MovedKeepsNonNegative(balances, sender, receiver, amount);
      }
      var senderBalance, receiverBalance := balances[sender], balances[receiver];
      senderBalance := senderBalance - amount;
      receiverBalance := receiverBalance + amount;
      balances := balances[sender := senderBalance];
      balances := balances[receiver := receiverBalance];
      assert balances == Moved(old(balances), sender, receiver, amount);
      transactions := transactions + [Txn(sender, receiver, amount, now, STATUS_SUCCESS)];
    }
  }

  /**
   One transfer request against a ledger holding `users` and `balances`:
   the answer is the verdict's reply; on acceptance exactly the two balances
   move and exactly one SUCCESS row is recorded; otherwise nothing changes.
   Money is conserved and no balance turns negative.
   */
  method TransferOnce(users: seq<Username>, balances: map<Username, int>, sender: Username, req: TransferRequest, now: int)
    returns (resp: Response, after: map<Username, int>, recorded: seq<Txn>)
    requires forall u :: u in balances ==> u in users
    ensures resp == Reply(Judge(users, balances, sender, req))
    ensures Judge(users, balances, sender, req) == Accepted ==>
      && after == Moved(balances, sender, req.receiver_username, req.amount)
      && recorded == [Txn(sender, req.receiver_username, req.amount, now, STATUS_SUCCESS)]
    ensures Judge(users, balances, sender, req) != Accepted ==> after == balances && recorded == []
    ensures Total(after) == Total(balances)
    ensures NonNegative(balances) ==> NonNegative(after)
  {
    var bank := new Bank(users, balances);
    resp := bank.Transfer(sender, Some(req), now);
    after, recorded := bank.balances, bank.transactions;
  }
}
