/**
 The dashboard: the profile, activity and user list fetched on mount, the
 transfer form with its message line, sign-out, and how each activity row
 is shown.
 */
module DashboardPage {
  import opened Wrappers
  import opened Api
  import opened Storage

  /** `msg.type`: '' (nothing shown), 'error' or 'success'. */
  datatype MsgType = Blank | ErrorMsg | SuccessMsg
  datatype Msg = Msg(kind: MsgType, text: string)

  const NO_MSG: Msg := Msg(Blank, "")
  const EMPTY_TRANSFER: TransferForm := TransferForm("", "")
  const SELECT_RECEIVER: string := "Select a receiver."
  const TRANSFER_SUCCESSFUL: string := "Transfer Successful!"
  const TRANSFER_FAILED: string := "Transfer Failed"
  const NO_ACTIVITY: string := "No recent activity."

  /** The message for a failed transfer: the server's `error`, else the fallback. */
  function TransferError(e: HttpError): string {
    OrElse(ErrorField(e, "error"), TRANSFER_FAILED)
  }

  /**
   A non-empty `error` string is shown verbatim. "Transfer Failed" is shown
   when no response arrived, when the response has no body or a text body,
   and when `error` is absent or empty.
   */
  lemma TransferErrorShowsServerError(e: HttpError)
    ensures forall d :: d != "" && ErrorField(e, "error") == Some(Str(d)) ==> TransferError(e) == d
    ensures (ErrorField(e, "error").None? || ErrorField(e, "error") == Some(Str(""))) ==>
      TransferError(e) == TRANSFER_FAILED
    ensures e.response.None? ==> TransferError(e) == TRANSFER_FAILED
    ensures (e.response.Some? && (e.response.value.data.None? || e.response.value.data.value.Text?)) ==>
      TransferError(e) == TRANSFER_FAILED
  {
  }

  /**
   For a JSON object body, such as the transfer view's `{"error": ...}`:
   a truthy `error` field is what is shown, and a body without an `error`
   field (a serializer's field errors) shows "Transfer Failed".
   */
  lemma TransferErrorOfObject(status: int, fields: seq<(string, FieldValue)>)
    requires DistinctKeys(fields)
    ensures forall i :: 0 <= i < |fields| && fields[i].0 == "error" && Truthy(fields[i].1) ==>
      TransferError(FieldsError(status, fields)) == Shown(fields[i].1)
    ensures (forall i :: 0 <= i < |fields| ==> fields[i].0 != "error") ==>
      TransferError(FieldsError(status, fields)) == TRANSFER_FAILED
  {
    ErrorFieldOfObject(status, fields, "error");
  }

  datatype Direction = Outgoing | Incoming

  /** One activity row: arrow, the other party's name, sign and amount. */
  datatype Row = Row(direction: Direction, counterparty: string, sign: char, amount: int)

  /** `isSender`: the row's sender is the signed-in user (never so while the profile is null). */
  predicate IsSender(tx: TxnRow, profile: Option<Profile>) {
    profile.Some? && tx.sender_name == profile.value.username
  }

  function RowFor(tx: TxnRow, profile: Option<Profile>): (r: Row)
    ensures r.direction == Outgoing <==> IsSender(tx, profile)
    ensures r.amount == tx.amount
  {
    if IsSender(tx, profile) then Row(Outgoing, tx.receiver_name, '-', tx.amount)
    else Row(Incoming, tx.sender_name, '+', tx.amount)
  }

  /**
   A row the user sent shows the receiver with '-'; any other row shows the
   sender with '+'. For a transaction between two different users that
   involves the signed-in user, the name shown is always the other party's.
   */
  lemma RowShowsCounterparty(tx: TxnRow, profile: Option<Profile>)
    ensures IsSender(tx, profile) ==> RowFor(tx, profile).counterparty == tx.receiver_name && RowFor(tx, profile).sign == '-'
    ensures !IsSender(tx, profile) ==> RowFor(tx, profile).counterparty == tx.sender_name && RowFor(tx, profile).sign == '+'
    ensures (profile.Some? && tx.sender_name != tx.receiver_name &&
             (tx.sender_name == profile.value.username || tx.receiver_name == profile.value.username)) ==>
              RowFor(tx, profile).counterparty != profile.value.username
  {
  }

  datatype Activity = NoActivity(text: string) | Rows(rows: seq<Row>)

  /**
   The activity panel: a placeholder for an empty list, else one row per
   transaction in the server's order. Each row shows the receiver with '-'
   when the signed-in user sent it and the sender with '+' otherwise, with
   the transaction's amount; on a row between two different users that
   involves the signed-in user, the name shown is never the user's own.
   */
  function ActivityFor(txs: seq<TxnRow>, profile: Option<Profile>): (a: Activity)
    ensures a.NoActivity? <==> txs == []
    ensures a.NoActivity? ==> a.text == NO_ACTIVITY
    ensures a.Rows? ==> |a.rows| == |txs|
    ensures a.Rows? ==> forall i :: 0 <= i < |txs| ==>
      && a.rows[i].amount == txs[i].amount
      && (a.rows[i].direction == Outgoing <==> IsSender(txs[i], profile))
      && (a.rows[i].direction == Outgoing ==> a.rows[i].counterparty == txs[i].receiver_name && a.rows[i].sign == '-')
      && (a.rows[i].direction == Incoming ==> a.rows[i].counterparty == txs[i].sender_name && a.rows[i].sign == '+')
    ensures a.Rows? ==> forall i :: 0 <= i < |txs| ==>
      (profile.Some? && txs[i].sender_name != txs[i].receiver_name &&
       (txs[i].sender_name == profile.value.username || txs[i].receiver_name == profile.value.username)) ==>
        a.rows[i].counterparty != profile.value.username
  {
    if txs == [] then NoActivity(NO_ACTIVITY)
    else Rows(seq(|txs|, i requires 0 <= i < |txs| => RowFor(txs[i], profile)))
  }

  class Dashboard {
    const storage: LocalStorage
    var profile: Option<Profile>
    var transactions: seq<TxnRow>
    var users: seq<UserOption>
    var transferData: TransferForm
    var loading: bool
    var msg: Msg
    var navigatedTo: Option<string>
    ghost var requests: seq<Request>

    constructor (store: LocalStorage)
      ensures storage == store
      ensures profile == None && transactions == [] && users == []
      ensures transferData == EMPTY_TRANSFER && loading && msg == NO_MSG
      ensures navigatedTo == None && requests == []
    {
      storage := store;
      profile := None;
      transactions := [];
      users := [];
      transferData := EMPTY_TRANSFER;
      loading := true;
      msg := NO_MSG;
      navigatedTo := None;
      requests := [];
    }

    /** `handleLogout`: wipe the whole storage, not only the tokens, and go to the sign-in page. */
    method HandleLogout()
      modifies this, storage
      ensures storage.items == map[]
      ensures navigatedTo == Some("/login")
      ensures profile == old(profile) && transactions == old(transactions) && users == old(users)
      ensures transferData == old(transferData) && loading == old(loading) && msg == old(msg)
      ensures requests == old(requests)
    {
      storage.Clear();
      navigatedTo := Some("/login");
    }

    /**
     `fetchData` on mount: the three reads are issued together; `result` is
     their combined outcome. A 401 signs out; any other failure leaves the
     page's data as it was. Loading ends on every path.
     */
    method FetchData(result: Result<(Profile, seq<TxnRow>, seq<UserOption>)>)
      modifies this, storage
      ensures requests == old(requests) + [Get("/profile/"), Get("/transactions/"), Get("/users/")]
      ensures !loading
      ensures transferData == old(transferData) && msg == old(msg)
      ensures result.Ok? ==>
        && profile == Some(result.value.0) && transactions == result.value.1 && users == result.value.2
        && storage.items == old(storage.items) && navigatedTo == old(navigatedTo)
      ensures result.Err? ==>
        profile == old(profile) && transactions == old(transactions) && users == old(users)
      ensures result.Err? && IsUnauthorized(result.error) ==>
        storage.items == map[] && navigatedTo == Some("/login")
      ensures result.Err? && !IsUnauthorized(result.error) ==>
        storage.items == old(storage.items) && navigatedTo == old(navigatedTo)
    {
      requests := requests + [Get("/profile/"), Get("/transactions/"), Get("/users/")];
      match result {
        case Ok(data) =>
          profile := Some(data.0);
          transactions := data.1;
          users := data.2;
        case Err(e) =>
          if IsUnauthorized(e) {
            HandleLogout();
          }
      }
      loading := false;
    }

    /**
     Pressing PAY: the amount is a `type="number"` input, and the browser
     fires no submit event while it holds text it cannot read as a number
     or a value off its default step of 1. `amountValid` is that browser
     check; when it fails nothing changes, and otherwise `handleTransfer` runs.
     */
    method Submit(amountValid: bool, posted: Result<()>, refetched: Result<(Profile, seq<TxnRow>)>)
      modifies this
      ensures storage.items == old(storage.items)
      ensures users == old(users) && loading == old(loading) && navigatedTo == old(navigatedTo)
      ensures !amountValid ==>
        && msg == old(msg) && requests == old(requests) && transferData == old(transferData)
        && profile == old(profile) && transactions == old(transactions)
      ensures amountValid && old(transferData.receiver_username) == "" ==>
        && msg == Msg(ErrorMsg, SELECT_RECEIVER)
        && requests == old(requests)
        && transferData == old(transferData)
        && profile == old(profile) && transactions == old(transactions)
      ensures amountValid && old(transferData.receiver_username) != "" && posted.Err? ==>
        && requests == old(requests) + [Post("/transfer/", TransferBody(old(transferData)))]
        && msg == Msg(ErrorMsg, TransferError(posted.error))
        && transferData == old(transferData)
        && profile == old(profile) && transactions == old(transactions)
      ensures amountValid && old(transferData.receiver_username) != "" && posted.Ok? ==>
        && requests == old(requests) + [Post("/transfer/", TransferBody(old(transferData))),
                                        Get("/profile/"), Get("/transactions/")]
        && transferData == EMPTY_TRANSFER
      ensures amountValid && old(transferData.receiver_username) != "" && posted.Ok? && refetched.Ok? ==>
        && msg == Msg(SuccessMsg, TRANSFER_SUCCESSFUL)
        && profile == Some(refetched.value.0) && transactions == refetched.value.1
      ensures amountValid && old(transferData.receiver_username) != "" && posted.Ok? && refetched.Err? ==>
        && msg == Msg(ErrorMsg, TransferError(refetched.error))
        && profile == old(profile) && transactions == old(transactions)
    {
      if !amountValid {
        return;
      }
      HandleTransfer(posted, refetched);
    }

    /**
     `handleTransfer`: an empty receiver is refused without a request.
     Otherwise the form is posted to `/transfer/` (`posted` is the answer);
     on success the form is reset and profile and activity are fetched again
     (`refetched` is that combined outcome) and replaced wholesale. A failure
     of either step shows the server's `error` or "Transfer Failed".
     */
    method HandleTransfer(posted: Result<()>, refetched: Result<(Profile, seq<TxnRow>)>)
      modifies this
      ensures storage.items == old(storage.items)
      ensures users == old(users) && loading == old(loading) && navigatedTo == old(navigatedTo)
      ensures old(transferData.receiver_username) == "" ==>
        && msg == Msg(ErrorMsg, SELECT_RECEIVER)
        && requests == old(requests)
        && transferData == old(transferData)
        && profile == old(profile) && transactions == old(transactions)
      ensures old(transferData.receiver_username) != "" && posted.Err? ==>
        && requests == old(requests) + [Post("/transfer/", TransferBody(old(transferData)))]
        && msg == Msg(ErrorMsg, TransferError(posted.error))
        && transferData == old(transferData)
        && profile == old(profile) && transactions == old(transactions)
      ensures old(transferData.receiver_username) != "" && posted.Ok? ==>
        && requests == old(requests) + [Post("/transfer/", TransferBody(old(transferData))),
                                        Get("/profile/"), Get("/transactions/")]
        && transferData == EMPTY_TRANSFER
      ensures old(transferData.receiver_username) != "" && posted.Ok? && refetched.Ok? ==>
        && msg == Msg(SuccessMsg, TRANSFER_SUCCESSFUL)
        && profile == Some(refetched.value.0) && transactions == refetched.value.1
      ensures old(transferData.receiver_username) != "" && posted.Ok? && refetched.Err? ==>
        && msg == Msg(ErrorMsg, TransferError(refetched.error))
        && profile == old(profile) && transactions == old(transactions)
    {
      msg := NO_MSG;
      if transferData.receiver_username == "" {
        msg := Msg(ErrorMsg, SELECT_RECEIVER);
        return;
      }
      requests := requests + [Post("/transfer/", TransferBody(transferData))];
      if posted.Err? {
        msg := Msg(ErrorMsg, TransferError(posted.error));
        return;
      }
      msg := Msg(SuccessMsg, TRANSFER_SUCCESSFUL);
      transferData := EMPTY_TRANSFER;
      requests := requests + [Get("/profile/"), Get("/transactions/")];
      match refetched {
        case Ok(data) =>
          profile := Some(data.0);
          transactions := data.1;
        case Err(e) =>
          msg := Msg(ErrorMsg, TransferError(e));
      }
    }

    /** The select's and the amount input's onChange: the form holds what was chosen and typed. */
    method ChooseTransfer(receiver: string, amount: string)
      modifies this
      ensures transferData == TransferForm(receiver, amount)
      ensures profile == old(profile) && transactions == old(transactions) && users == old(users)
      ensures loading == old(loading) && msg == old(msg) && navigatedTo == old(navigatedTo)
      ensures requests == old(requests)
    {
      transferData := TransferForm(receiver, amount);
    }
  }

  /**
   Opening the dashboard: on success the three answers are shown; a 401
   wipes storage and goes to the sign-in page; any other failure leaves the
   page empty (no profile) with storage untouched. Loading always ends.
   */
  method OpenDashboard(items: map<string, string>, result: Result<(Profile, seq<TxnRow>, seq<UserOption>)>)
    returns (profile: Option<Profile>, after: map<string, string>, went: Option<string>, stillLoading: bool)
    ensures !stillLoading
    ensures result.Ok? ==> profile == Some(result.value.0) && after == items && went == None
    ensures result.Err? ==> profile == None
    ensures result.Err? && IsUnauthorized(result.error) ==> after == map[] && went == Some("/login")
    ensures result.Err? && !IsUnauthorized(result.error) ==> after == items && went == None
  {
    var store := new LocalStorage(items);
    var page := new Dashboard(store);
    page.FetchData(result);
    profile, after, went, stillLoading := page.profile, store.items, page.navigatedTo, page.loading;
  }

  /**
   Pressing PAY with no receiver chosen: no request is issued. When the
   browser accepts the amount the message reads "Select a receiver."; when
   it does not, no submit event fires and the message stays blank.
   */
  method SubmitWithoutReceiver(items: map<string, string>, amount: string, amountValid: bool,
                               posted: Result<()>, refetched: Result<(Profile, seq<TxnRow>)>)
    returns (ghost sent: seq<Request>, shown: Msg, form: TransferForm)
    ensures sent == []
    ensures amountValid ==> shown == Msg(ErrorMsg, SELECT_RECEIVER)
    ensures !amountValid ==> shown == NO_MSG
    ensures form == TransferForm("", amount)
  {
    var store := new LocalStorage(items);
    var page := new Dashboard(store);
    page.ChooseTransfer("", amount);
    page.Submit(amountValid, posted, refetched);
    sent, shown, form := page.requests, page.msg, page.transferData;
  }

  /**
   A successful transfer shows the balance the server reports afterwards,
   whatever was shown before: nothing is computed locally. An amount the
   browser refuses leaves the page as it was.
   */
  method TransferShowsServerBalance(items: map<string, string>, before: Profile, receiver: string, amount: string,
                                    amountValid: bool, after: Profile, activity: seq<TxnRow>)
    returns (shownBalance: int, shownActivity: seq<TxnRow>, shown: Msg, form: TransferForm)
    requires receiver != ""
    ensures amountValid ==>
      && shownBalance == after.balance
      && shownActivity == activity
      && shown == Msg(SuccessMsg, TRANSFER_SUCCESSFUL)
      && form == EMPTY_TRANSFER
    ensures !amountValid ==>
      && shownBalance == before.balance
      && shownActivity == []
      && shown == NO_MSG
      && form == TransferForm(receiver, amount)
  {
    var store := new LocalStorage(items);
    var page := new Dashboard(store);
    page.FetchData(Ok((before, [], [])));
    page.ChooseTransfer(receiver, amount);
    page.Submit(amountValid, Ok(()), Ok((after, activity)));
    shownBalance, shownActivity, shown, form := page.profile.value.balance, page.transactions, page.msg, page.transferData;
  }
}
