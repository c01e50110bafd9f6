/** The two tables of the bot's database and the statements run against them:
    the users table as a map from user id to row, the history table as the
    sequence of rows in insertion order. */
module Ledger {
  import opened Wrappers
  import Text

  /** A row of the users table (the id is its key in the map). */
  datatype User = User(
    username: string,
    firstName: Option<string>,
    age: Option<int>,
    gender: Option<string>,
    balance: int,
    freeUsed: int)

  /** The row `get_user` inserts for an id it has not seen: only the handle is set. */
  function NewUser(username: string): (u: User)
    ensures u.username == username && u.balance == 0 && u.freeUsed == 0
    ensures u.firstName.None? && u.age.None? && u.gender.None?
    ensures Solvent(map[0 := u])
  {
    User(username, None, None, None, 0, 0)
  }

  /** A row of the history table; the store-assigned id and timestamp are not modelled. */
  datatype HistoryEntry = HistoryEntry(userId: int, question: string, cards: string, answer: string)

  /** The resting invariant of the users table: no balance below zero and the
      free-reading flag either 0 or 1. */
  ghost predicate Solvent(users: map<int, User>) {
    forall id :: id in users ==> users[id].balance >= 0 && 0 <= users[id].freeUsed <= 1
  }

  // ---------------------------------------------------------------------------
  // The effect of each statement on the users table
  // ---------------------------------------------------------------------------

  /** The table after `get_user`: a fresh row for an unseen id, nothing new otherwise. */
  function WithUser(users: map<int, User>, id: int, username: string): (r: map<int, User>)
    ensures r.Keys == users.Keys + {id}
    ensures id in users ==> r == users
    ensures forall j :: j in users ==> r[j] == users[j]
    ensures id !in users ==> r[id].balance == 0 && r[id].freeUsed == 0 && r[id].username == username
                             && r[id].firstName.None? && r[id].age.None? && r[id].gender.None?
    ensures |r| == |users| + (if id in users then 0 else 1)
  {
    if id in users then users else users[id := NewUser(username)]
  }

  /** `UPDATE users SET balance = balance + amount WHERE user_id = id`. */
  function Credit(users: map<int, User>, id: int, amount: int): (r: map<int, User>)
    ensures r.Keys == users.Keys
    ensures forall j :: j in users && j != id ==> r[j] == users[j]
    ensures id in users ==> r[id].balance == users[id].balance + amount
                            && r[id].(balance := users[id].balance) == users[id]
  {
    if id in users then users[id := users[id].(balance := users[id].balance + amount)] else users
  }

  /** `UPDATE users SET free_used = 1 WHERE user_id = id`. */
  function MarkFreeUsed(users: map<int, User>, id: int): (r: map<int, User>)
    ensures r.Keys == users.Keys
    ensures forall j :: j in users && j != id ==> r[j] == users[j]
    ensures id in users ==> r[id].freeUsed == 1 && r[id].(freeUsed := users[id].freeUsed) == users[id]
  {
    if id in users then users[id := users[id].(freeUsed := 1)] else users
  }

  /** `UPDATE users SET first_name = ?, age = ?, gender = ? WHERE user_id = id`. */
  function WithProfile(users: map<int, User>, id: int, firstName: string, age: int, gender: string): (r: map<int, User>)
    ensures r.Keys == users.Keys
    ensures forall j :: j in users && j != id ==> r[j] == users[j]
    ensures id in users ==> r[id].firstName == Some(firstName) && r[id].age == Some(age) && r[id].gender == Some(gender)
                            && r[id].balance == users[id].balance && r[id].freeUsed == users[id].freeUsed
                            && r[id].username == users[id].username
  {
    if id in users
    then users[id := users[id].(firstName := Some(firstName), age := Some(age), gender := Some(gender))]
    else users
  }

  /** Get-or-create twice is get-or-create once: the second call finds the row
      the first one inserted, whatever handle it is given. */
  lemma WithUserIdempotent(users: map<int, User>, id: int, first: string, second: string)
    ensures WithUser(WithUser(users, id, first), id, second) == WithUser(users, id, first)
  {
  }

  /** Inserting a row with zero balance keeps the table solvent. */
  lemma WithUserSolvent(users: map<int, User>, id: int, username: string)
    requires Solvent(users)
    ensures Solvent(WithUser(users, id, username))
  {
  }

  /** A credit of a non-negative amount keeps the table solvent, and so does a
      debit the balance covers. */
  lemma CreditSolvent(users: map<int, User>, id: int, amount: int)
    requires Solvent(users)
    requires id in users ==> users[id].balance + amount >= 0
    ensures Solvent(Credit(users, id, amount))
  {
  }

  // ---------------------------------------------------------------------------
  // get_history
  // ---------------------------------------------------------------------------

  /** The history rows of one user, in the order they were written. */
  function EntriesOf(log: seq<HistoryEntry>, id: int): (rows: seq<HistoryEntry>)
    ensures |rows| <= |log|
    ensures forall e :: e in rows <==> e in log && e.userId == id
  {
    if log == [] then []
    else (if log[0].userId == id then [log[0]] else []) + EntriesOf(log[1..], id)
  }

  /** Appending a row adds it to its own user's history and to no one else's. */
  lemma {:induction false} EntriesOfAppend(log: seq<HistoryEntry>, e: HistoryEntry, id: int)
    ensures EntriesOf(log + [e], id) == EntriesOf(log, id) + (if e.userId == id then [e] else [])
  {
    if log != [] {
      assert (log + [e])[1..] == log[1..] + [e];
      EntriesOfAppend(log[1..], e, id);
    }
  }

  // ---------------------------------------------------------------------------
  // stats
  // ---------------------------------------------------------------------------

  lemma HasMember(ids: set<int>)
    requires ids != {}
    ensures exists id :: id in ids
  {
    if forall id :: id !in ids {
      assert false;
    }
  }

  /** Some id of a non-empty table, the one the sum below takes first. */
  ghost function PickId(users: map<int, User>): (id: int)
    requires |users| > 0
    ensures id in users
  {
    HasMember(users.Keys);
    var id :| id in users.Keys; id
  }

  /** `SUM(balance)` over the users table, 0 for an empty table. */
  ghost function SumBalance(users: map<int, User>): (sum: int)
    ensures |users| == 0 ==> sum == 0
    ensures (forall id :: id in users ==> users[id].balance == 0) ==> sum == 0
    decreases |users|
  {
    if |users| == 0 then 0
    else
      var id := PickId(users);
      assert |users - {id}| < |users| by { assert (users - {id}).Keys < users.Keys; }
      users[id].balance + SumBalance(users - {id})
  }

  /** The sum can be taken apart at any row, whichever row the definition picks first. */
  lemma {:induction false} SumBalanceRemove(users: map<int, User>, id: int)
    requires id in users
    ensures SumBalance(users) == users[id].balance + SumBalance(users - {id})
    decreases |users|
  {
    var p := PickId(users);
    if p != id {
      assert (users - {p}).Keys < users.Keys;
      assert (users - {id}).Keys < users.Keys;
      SumBalanceRemove(users - {p}, id);
      SumBalanceRemove(users - {id}, p);
      assert users - {p} - {id} == users - {id} - {p};
    }
  }

  /** Replacing one row moves the sum by exactly the change in that row's balance;
      inserting a row adds its balance. */
  lemma SumBalanceUpdate(users: map<int, User>, id: int, u: User)
    ensures SumBalance(users[id := u]) == SumBalance(users) + u.balance - (if id in users then users[id].balance else 0)
  {
    var m := users[id := u];
    SumBalanceRemove(m, id);
    if id in users {
      SumBalanceRemove(users, id);
      assert m - {id} == users - {id};
    } else {
      assert m - {id} == users;
    }
  }

  /** In a solvent table the balances add up to a non-negative total. */
  lemma {:induction false} SumBalanceNonNegative(users: map<int, User>)
    requires Solvent(users)
    ensures SumBalance(users) >= 0
    decreases |users|
  {
    if |users| > 0 {
      var p := PickId(users);
      assert (users - {p}).Keys < users.Keys;
      SumBalanceNonNegative(users - {p});
    }
  }

  /** `get_user` inserts a row for a new id and adds nothing to the summed
      balance; the row count grows by one. */
  lemma WithUserTotals(users: map<int, User>, id: int, username: string)
    ensures SumBalance(WithUser(users, id, username)) == SumBalance(users)
  {
    if id !in users {
      SumBalanceUpdate(users, id, NewUser(username));
    }
  }

  /** A balance update moves the summed balance by exactly the amount when the
      id has a row, and not at all otherwise. */
  lemma CreditTotals(users: map<int, User>, id: int, amount: int)
    ensures SumBalance(Credit(users, id, amount)) == SumBalance(users) + (if id in users then amount else 0)
  {
    if id in users {
      var u := users[id].(balance := users[id].balance + amount);
      assert Credit(users, id, amount) == users[id := u];
      SumBalanceUpdate(users, id, u);
    }
  }

  /** The two numbers `stats` reports. */
  datatype Totals = Totals(userCount: nat, balanceSum: int)

  /** `str(admin_id)`: the configured administrator id as text; "None" when unset. */
  function AdminText(adminId: Option<string>): (text: string)
    ensures adminId.Some? ==> text == adminId.value
    ensures adminId.None? ==> forall i :: Text.ShowInt(i) != text
  {
    match adminId
    case None => "None"
    case Some(s) => s
  }

  /** `str(user.id) == str(admin_id)`. */
  predicate IsAdmin(callerId: int, adminId: Option<string>)
    ensures IsAdmin(callerId, adminId) ==> adminId.Some?
  {
    Text.ShowInt(callerId) == AdminText(adminId)
  }

  /** At most one caller passes the check, and none when no administrator is configured. */
  lemma AdminIsUnique(a: int, b: int, adminId: Option<string>)
    requires IsAdmin(a, adminId) && IsAdmin(b, adminId)
    ensures a == b && adminId.Some?
  {
    Text.ShowIntInjective(a, b);
  }

  /** `stats`: nothing for anyone but the administrator; for the administrator
      the number of users and their summed balance. */
  ghost function Stats(users: map<int, User>, callerId: int, adminId: Option<string>): (r: Option<Totals>)
    ensures r.Some? <==> IsAdmin(callerId, adminId)
    ensures r.Some? ==> r.value.userCount == |users| && r.value.balanceSum == SumBalance(users)
  {
    if IsAdmin(callerId, adminId) then Some(Totals(|users|, SumBalance(users))) else None
  }

  /** What `stats` reports over a solvent table is never a negative total. */
  lemma StatsSolvent(users: map<int, User>, callerId: int, adminId: Option<string>)
    requires Solvent(users) && IsAdmin(callerId, adminId)
    ensures Stats(users, callerId, adminId).value.balanceSum >= 0
  {
    SumBalanceNonNegative(users);
  }

  // ---------------------------------------------------------------------------
  // The database
  // ---------------------------------------------------------------------------

  /** The bot's database: the users table and the append-only history table. */
  class Store {
    var users: map<int, User>
    var history: seq<HistoryEntry>

    ghost predicate Valid()
      reads this
    {
      Solvent(users)
    }

    /** `init_db` on a new database file: both tables empty. */
    constructor ()
      ensures users == map[] && history == []
      ensures Valid()
    {
      users := map[];
      history := [];
    }

    /** `get_user`: the stored row, inserting a fresh one first when the id is new. */
    method GetUser(id: int, username: string) returns (u: User)
      modifies this
      ensures users == WithUser(old(users), id, username)
      ensures id in users && u == users[id]
      ensures id in old(users) ==> u == old(users)[id]
      ensures history == old(history)
      ensures old(Valid()) ==> Valid()
    {
      if id in users {
        u := users[id];
      } else {
        u := NewUser(username);
        users := users[id := u];
      }
    }

    /** `update_profile`: one update of name, age and gender; no effect on an unknown id. */
    method UpdateProfile(id: int, firstName: string, age: int, gender: string)
      modifies this
      ensures users == WithProfile(old(users), id, firstName, age, gender)
      ensures history == old(history)
      ensures old(Valid()) ==> Valid()
    {
      if id in users {
        users := users[id := users[id].(firstName := Some(firstName), age := Some(age), gender := Some(gender))];
      }
    }

    /** `update_balance`: adds `amount` (a debit when negative); no effect on an unknown id. */
    method UpdateBalance(id: int, amount: int)
      modifies this
      ensures users == Credit(old(users), id, amount)
      ensures history == old(history)
      ensures old(Valid()) && (id in old(users) ==> old(users)[id].balance + amount >= 0) ==> Valid()
    {
      if id in users {
        users := users[id := users[id].(balance := users[id].balance + amount)];
      }
    }

    /** `set_free_used`: marks the free reading as spent; no effect on an unknown id. */
    method SetFreeUsed(id: int)
      modifies this
      ensures users == MarkFreeUsed(old(users), id)
      ensures history == old(history)
      ensures old(Valid()) ==> Valid()
    {
      if id in users {
        users := users[id := users[id].(freeUsed := 1)];
      }
    }

    /** `add_history`: appends one row whose `cards` column is the card names joined with ','. */
    method AddHistory(id: int, question: string, cardNames: seq<string>, answer: string)
      modifies this
      ensures history == old(history) + [HistoryEntry(id, question, Text.Join(cardNames, ','), answer)]
      ensures users == old(users)
    {
      history := history + [HistoryEntry(id, question, Text.Join(cardNames, ','), answer)];
    }

    /** `get_history`: the rows written for one user (the store's timestamp order is not modelled). */
    function GetHistory(id: int): (rows: seq<HistoryEntry>)
      reads this
      ensures forall e :: e in rows <==> e in history && e.userId == id
    {
      EntriesOf(history, id)
    }
  }
}
