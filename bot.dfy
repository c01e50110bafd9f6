/** The `/read` and `/topup` commands: the entitlement decision, the reading
    transaction and the balance credit, each run by a single sequential caller. */
module Bot {
  import opened Wrappers
  import Text
  import opened Cards
  import opened Ledger

  /** `FREE_READING`: how many free readings a user has. */
  const FreeReading := 1
  /** `READING_PRICE`: the price of a paid reading. */
  const ReadingPrice := 299

  /** How a reading is paid for, or that it is refused. */
  datatype Entitlement = Free | Paid | Denied

  /** The decision `read` takes from the stored row, in the source's order:
      refuse when the free reading is spent and the balance is short, else the
      free reading while it is unused, else a paid reading. */
  function Entitle(freeUsed: int, balance: int): (e: Entitlement)
    ensures e == Free <==> freeUsed < FreeReading
    ensures e == Paid <==> freeUsed >= FreeReading && balance >= ReadingPrice
    ensures e == Denied <==> freeUsed >= FreeReading && balance < ReadingPrice
  {
    if freeUsed >= FreeReading && balance < ReadingPrice then Denied
    else if freeUsed < FreeReading then Free
    else Paid
  }

  /** The row after a granted reading is paid for: the free flag set, or the price debited. */
  function Charge(u: User, e: Entitlement): (v: User)
    requires e != Denied
    ensures v.(balance := u.balance, freeUsed := u.freeUsed) == u
    ensures e == Free ==> v.freeUsed == FreeReading && v.balance == u.balance
    ensures e == Paid ==> v.freeUsed == u.freeUsed && v.balance == u.balance - ReadingPrice
  {
    if e == Free then u.(freeUsed := FreeReading) else u.(balance := u.balance - ReadingPrice)
  }

  /** A granted reading consumes exactly one entitlement: either the free
      reading (balance untouched) or one price's worth of balance (flag
      untouched); no other field changes, and a balance that was not negative
      stays that way. */
  lemma ChargeConsumesOne(u: User)
    requires Entitle(u.freeUsed, u.balance) != Denied
    ensures var v := Charge(u, Entitle(u.freeUsed, u.balance));
            && v.(balance := u.balance, freeUsed := u.freeUsed) == u
            && (Entitle(u.freeUsed, u.balance) == Free ==> v.freeUsed == FreeReading && v.balance == u.balance && u.freeUsed != v.freeUsed)
            && (Entitle(u.freeUsed, u.balance) == Paid ==> v.freeUsed == u.freeUsed && v.balance == u.balance - ReadingPrice)
            && (u.balance >= 0 ==> v.balance >= 0)
            && Entitle(v.freeUsed, v.balance) != Free
  {
  }

  /** The table after the charge for a granted reading, as `read` leaves it. */
  function Settle(users: map<int, User>, id: int, e: Entitlement): (r: map<int, User>)
    requires e != Denied
    ensures id in users ==> r == users[id := Charge(users[id], e)]
    ensures id !in users ==> r == users
  {
    if e == Free then MarkFreeUsed(users, id) else Credit(users, id, -ReadingPrice)
  }

  /** Settling a granted reading against the row the decision was taken from
      replaces that row by its charged version and touches no other row; a
      solvent table stays solvent. */
  lemma SettleCharges(users: map<int, User>, id: int)
    requires id in users && Entitle(users[id].freeUsed, users[id].balance) != Denied
    ensures var e := Entitle(users[id].freeUsed, users[id].balance);
            Settle(users, id, e) == users[id := Charge(users[id], e)]
    ensures Solvent(users) ==> Solvent(Settle(users, id, Entitle(users[id].freeUsed, users[id].balance)))
  {
  }

  /** What `/read` replies. */
  datatype ReadReply =
    | ReadUsage                                // no question after the command
    | Insufficient                             // the free reading is spent and the balance is short
    | Reading(cards: seq<Card>, answer: string) // the drawn cards and the answer
    | Raised                                   // `generate_answer` raised; the handler stopped there

  /** `read`: with a question, fetch (or create) the row, decide, draw, ask for
      an answer, settle the charge and log the reading. `draw` is what
      `random.sample` returned and `backend` what the text backend did. */
  method Read(store: Store, userId: int, username: string, args: seq<string>,
              catalog: seq<Card>, draw: Draw, backend: Backend) returns (reply: ReadReply)
    requires ValidDraw(catalog, draw)
    modifies store
    ensures args == [] ==> reply == ReadUsage && store.users == old(store.users) && store.history == old(store.history)
    ensures args != [] ==>
      var seen := WithUser(old(store.users), userId, username);
      var u := seen[userId];
      var e := Entitle(u.freeUsed, u.balance);
      var cards := Drawn(catalog, draw);
      var question := Text.Join(args, ' ');
      var answer := GenerateAnswer(backend, cards, question);
      && (e == Denied ==> reply == Insufficient && store.users == seen && store.history == old(store.history))
      && (e != Denied && answer.None? ==> reply == Raised && store.users == seen && store.history == old(store.history))
      && (e != Denied && answer.Some? ==>
            && reply == Reading(cards, answer.value)
            && store.users == seen[userId := Charge(u, e)]
            && store.history == old(store.history) + [HistoryEntry(userId, question, CardsColumn(cards), answer.value)])
    ensures old(store.Valid()) ==> store.Valid()
  {
    if args == [] {
      return ReadUsage;
    }
    var question := Text.Join(args, ' ');
    var u := store.GetUser(userId, username);
    if u.freeUsed >= FreeReading && u.balance < ReadingPrice {
      return Insufficient;
    }
    var cards := Drawn(catalog, draw);
    var answer := GenerateAnswer(backend, cards, question);
    if answer.None? {
      return Raised;
    }
    ghost var seen := store.users;
    if u.freeUsed < FreeReading {
      store.SetFreeUsed(userId);
    } else {
      store.UpdateBalance(userId, -ReadingPrice);
    }
    SettleCharges(seen, userId);
    store.AddHistory(userId, question, Names(cards), answer.value);
    reply := Reading(cards, answer.value);
  }

  /** What `/topup` replies. */
  datatype TopupReply =
    | TopupUsage          // no argument, or the first one is not all digits
    | Credited(amount: nat)

  /** `topup`: credit the amount written as digits in the first argument.
      The row is not created first, so an unknown id is told it was credited
      while nothing changes. */
  method Topup(store: Store, userId: int, args: seq<string>) returns (reply: TopupReply)
    modifies store
    ensures args == [] || !Text.IsDigits(args[0]) ==>
              reply == TopupUsage && store.users == old(store.users)
    ensures args != [] && Text.IsDigits(args[0]) ==>
              && reply == Credited(Text.ParseDigits(args[0]))
              && store.users == Credit(old(store.users), userId, Text.ParseDigits(args[0]))
    ensures store.history == old(store.history)
    ensures old(store.Valid()) ==> store.Valid()
  {
    if args == [] || !Text.IsDigits(args[0]) {
      return TopupUsage;
    }
    var amount := Text.ParseDigits(args[0]);
    store.UpdateBalance(userId, amount);
    reply := Credited(amount);
  }

  /** A paid reading lowers the summed balance by the price; a free one leaves it. */
  lemma SettleTotals(users: map<int, User>, id: int)
    requires id in users && Entitle(users[id].freeUsed, users[id].balance) != Denied
    ensures var e := Entitle(users[id].freeUsed, users[id].balance);
            SumBalance(Settle(users, id, e)) == SumBalance(users) - (if e == Paid then ReadingPrice else 0)
  {
    var e := Entitle(users[id].freeUsed, users[id].balance);
    if e == Paid {
      CreditTotals(users, id, -ReadingPrice);
    } else {
      SumBalanceUpdate(users, id, users[id].(freeUsed := FreeReading));
    }
  }

  // ---------------------------------------------------------------------------
  // The command sequences the bot is expected to handle
  // ---------------------------------------------------------------------------

  /** A user the bot has never seen asks one question with no backend token:
      the free reading is used, the balance stays 0, exactly one history row is
      written, and the answer quotes the question. */
  method FreshUserReadsFree(userId: int, username: string, args: seq<string>,
                            catalog: seq<Card>, draw: Draw)
      returns (reply: ReadReply, row: User, rows: seq<HistoryEntry>)
    requires args != [] && ValidDraw(catalog, draw)
    ensures reply.Reading? && Text.Contains(reply.answer, Text.Join(args, ' '))
    ensures row.freeUsed == 1 && row.balance == 0
    ensures rows == [HistoryEntry(userId, Text.Join(args, ' '), CardsColumn(Drawn(catalog, draw)), reply.answer)]
  {
    var store := new Store();
    reply := Read(store, userId, username, args, catalog, draw, NoToken);
    row := store.users[userId];
    rows := store.history;
  }

  /** With the free reading spent, a balance of 100 is refused (and stays 100,
      with no history row) and a balance of 500 pays: 201 is left and one row
      is written. */
  method SpentFreeReading(userId: int, balance: int, args: seq<string>,
                          catalog: seq<Card>, draw: Draw)
      returns (reply: ReadReply, row: User, rows: nat)
    requires args != [] && ValidDraw(catalog, draw)
    requires balance == 100 || balance == 500
    ensures balance == 100 ==> reply == Insufficient && row.balance == 100 && rows == 0
    ensures balance == 500 ==> reply.Reading? && row.balance == 201 && rows == 1
    ensures row.freeUsed == 1
  {
    var store := new Store();
    store.users := map[userId := User("", None, None, None, balance, 1)];
    reply := Read(store, userId, "", args, catalog, draw, NoToken);
    row := store.users[userId];
    rows := |store.history|;
  }

  /** A backend answering with status 500 still yields a reading: the answer is
      the fixed failure text and the free reading is consumed. */
  method BackendFailureStillCharges(userId: int, args: seq<string>, catalog: seq<Card>, draw: Draw, status: int)
      returns (reply: ReadReply, row: User)
    requires args != [] && ValidDraw(catalog, draw) && status != 200
    ensures reply.Reading? && reply.answer == NoAnswer
    ensures row.freeUsed == 1
  {
    var store := new Store();
    reply := Read(store, userId, "", args, catalog, draw, Replied(status, None));
    row := store.users[userId];
  }

  /** `/topup abc` is refused and changes nothing; `/topup 50` adds exactly 50. */
  method TopupScenario(userId: int, balance: int) returns (refused: TopupReply, credited: TopupReply, after: int)
    ensures refused == TopupUsage
    ensures credited == Credited(50) && after == balance + 50
  {
    var store := new Store();
    store.users := map[userId := User("", None, None, None, balance, 1)];
    refused := Topup(store, userId, ["abc"]);
    assert store.users[userId].balance == balance;
    credited := Topup(store, userId, ["50"]);
    after := store.users[userId].balance;
  }
}
