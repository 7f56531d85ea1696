/**
  The time-off ledger behind the MCP time-off server: an `employee` table
  keyed by a unique name that carries each employee's allowance and days
  consumed, and a `timeoff_history` table of granted requests. SQLite is
  replaced by in-memory state; the two tables are a map and a sequence.
 */
module TimeoffLedger {
  import opened Wrappers

  /** A row of `employee`; the `name` column, declared UNIQUE, is the key of the map that holds the rows. */
  datatype Employee = Employee(id: nat, allowedDays: int, consumedDays: int)

  /** A row of `timeoff_history`; `employeeId` refers to `employee.id`. */
  datatype HistoryRow = HistoryRow(id: nat, employeeId: nat, startDay: string, totalDays: int)

  /**
    The database: both tables, and the next value of each AUTOINCREMENT
    key (ids start at 1 and are never reused).
   */
  datatype Store = Store(
    employees: map<string, Employee>,
    history: seq<HistoryRow>,
    nextEmployeeId: nat,
    nextHistoryId: nat)

  /**
    Why `add_timeoff_request` raises: `ValueError` for an unknown name or
    too few days left, or `OverflowError` when `sqlite3` cannot bind the
    number of days as a 64-bit SQLite INTEGER.
   */
  datatype LedgerError = EmployeeNotFound | NotEnoughBalance | IntegerOverflow

  /** The text of the exception. */
  function ErrorMessage(e: LedgerError): string {
    match e
    case EmployeeNotFound => "Employee not found"
    case NotEnoughBalance => "Not enough timeoff balance"
    case IntegerOverflow => "Python int too large to convert to SQLite INTEGER"
  }

  /** The range of a SQLite INTEGER, a signed 64-bit number. */
  const INT64_MIN: int := -0x8000_0000_0000_0000
  const INT64_MAX: int := 0x7fff_ffff_ffff_ffff

  predicate FitsInteger(n: int) {
    INT64_MIN <= n <= INT64_MAX
  }

  const SUCCESS_MESSAGE: string := "Successfully added timeoff request"

  /** The rows `seed_data` inserts: name, allowed days, consumed days. */
  const SEED: seq<(string, int, int)> := [("Alice", 20, 5), ("Bob", 15, 3), ("Charlie", 25, 10)]

  // ---------------------------------------------------------------------
  // Invariants
  // ---------------------------------------------------------------------

  function EmployeeIds(s: Store): set<nat> {
    set n | n in s.employees :: s.employees[n].id
  }

  /**
    The schema's own guarantees: employee ids are distinct and below the
    next one, history ids increase along the table and stay below the next
    one, and every history row names an existing employee.
   */
  predicate Valid(s: Store) {
    && 1 <= s.nextEmployeeId && 1 <= s.nextHistoryId
    && (forall n :: n in s.employees ==> 1 <= s.employees[n].id < s.nextEmployeeId)
    && (forall n, m :: n in s.employees && m in s.employees && n != m ==> s.employees[n].id != s.employees[m].id)
    && (forall i :: 0 <= i < |s.history| ==> 1 <= s.history[i].id < s.nextHistoryId)
    && (forall i, j :: 0 <= i < j < |s.history| ==> s.history[i].id < s.history[j].id)
    && (forall i :: 0 <= i < |s.history| ==> s.history[i].employeeId in EmployeeIds(s))
  }

  /** No employee has consumed more than allowed. */
  predicate Balanced(s: Store) {
    forall n :: n in s.employees ==> s.employees[n].consumedDays <= s.employees[n].allowedDays
  }

  /** No employee has a negative consumption. */
  predicate NonNegative(s: Store) {
    forall n :: n in s.employees ==> s.employees[n].consumedDays >= 0
  }

  // ---------------------------------------------------------------------
  // Construction
  // ---------------------------------------------------------------------

  /** Two empty tables whose AUTOINCREMENT keys start at 1. */
  function EmptyStore(): (s: Store)
    ensures Valid(s) && Balanced(s) && NonNegative(s)
  {
    Store(map[], [], 1, 1)
  }

  /**
    `create_tables` on the database `connect` opened: `CREATE TABLE IF NOT
    EXISTS` makes empty tables in a new database (such as the default
    `":memory:"`) and leaves the tables of an existing one as they are.
   */
  function CreateTables(existing: Option<Store>): Store {
    match existing
    case None => EmptyStore()
    case Some(s) => s
  }

  /**
    `INSERT OR IGNORE INTO employee`: a name already present is left alone.
    SQLite draws the AUTOINCREMENT id before it meets the UNIQUE conflict,
    so an ignored row still uses up its id.
   */
  function InsertOrIgnore(s: Store, name: string, allowed: int, consumed: int): Store {
    if name in s.employees then s.(nextEmployeeId := s.nextEmployeeId + 1)
    else s.(employees := s.employees[name := Employee(s.nextEmployeeId, allowed, consumed)],
            nextEmployeeId := s.nextEmployeeId + 1)
  }

  /** The inserts of `rows`, in order. */
  function InsertAll(s: Store, rows: seq<(string, int, int)>): Store
    decreases |rows|
  {
    if rows == [] then s
    else
      var (name, allowed, consumed) := rows[|rows| - 1];
      InsertOrIgnore(InsertAll(s, rows[..|rows| - 1]), name, allowed, consumed)
  }

  /** `seed_data`. */
  function Seeded(s: Store): Store {
    InsertAll(s, SEED)
  }

  /** `TimeOffDatastore(db_path)`: connect, create the tables, seed them. */
  function Open(existing: Option<Store>): Store {
    Seeded(CreateTables(existing))
  }

  // ---------------------------------------------------------------------
  // Queries and requests
  // ---------------------------------------------------------------------

  /** `get_timeoff_balance`: days left, or `None` for an unknown name. */
  function Balance(s: Store, name: string): Option<int> {
    if name in s.employees then Some(s.employees[name].allowedDays - s.employees[name].consumedDays) else None
  }

  /**
    What `add_timeoff_request` returns or raises. The balance check is done
    on Python's unbounded integers; binding the days to the history INSERT,
    the first write, is where a value outside 64 bits fails.
   */
  function RequestResult(s: Store, name: string, totalDays: int): Result<string, LedgerError> {
    if name !in s.employees then Err(EmployeeNotFound)
    else if s.employees[name].consumedDays + totalDays > s.employees[name].allowedDays then Err(NotEnoughBalance)
    else if !FitsInteger(totalDays) then Err(IntegerOverflow)
    else Ok(SUCCESS_MESSAGE)
  }

  /** The database after `add_timeoff_request`: on success one history row and one updated employee. */
  function RequestState(s: Store, name: string, startDay: string, totalDays: int): Store {
    if RequestResult(s, name, totalDays).Err? then s
    else
      var e := s.employees[name];
      s.(history := s.history + [HistoryRow(s.nextHistoryId, e.id, startDay, totalDays)],
         nextHistoryId := s.nextHistoryId + 1,
         employees := s.employees[name := e.(consumedDays := e.consumedDays + totalDays)])
  }

  /** The days recorded in `history` for the employee with id `id`. */
  function Recorded(history: seq<HistoryRow>, id: nat): int
    decreases |history|
  {
    if history == [] then 0
    else
      var last := history[|history| - 1];
      Recorded(history[..|history| - 1], id) + (if last.employeeId == id then last.totalDays else 0)
  }

  // ---------------------------------------------------------------------
  // Seeding
  // ---------------------------------------------------------------------

  /** An insert never changes a row already present and adds its name. */
  lemma InsertOrIgnoreKeeps(s: Store, name: string, allowed: int, consumed: int)
    ensures var s' := InsertOrIgnore(s, name, allowed, consumed);
      && s'.employees.Keys == s.employees.Keys + {name}
      && (forall m :: m in s.employees ==> s'.employees[m] == s.employees[m])
      && s'.history == s.history
  {
  }

  lemma InsertOrIgnoreValid(s: Store, name: string, allowed: int, consumed: int)
    requires Valid(s)
    ensures Valid(InsertOrIgnore(s, name, allowed, consumed))
  {
    if name !in s.employees {
      var s' := InsertOrIgnore(s, name, allowed, consumed);
      assert EmployeeIds(s) <= EmployeeIds(s') by {
        forall id | id in EmployeeIds(s) ensures id in EmployeeIds(s') {
          var n :| n in s.employees && s.employees[n].id == id;
          assert s'.employees[n] == s.employees[n];
        }
      }
    }
  }

  lemma {:induction false} InsertAllValid(s: Store, rows: seq<(string, int, int)>)
    requires Valid(s)
    ensures Valid(InsertAll(s, rows))
    decreases |rows|
  {
    if rows != [] {
      var (name, allowed, consumed) := rows[|rows| - 1];
      InsertAllValid(s, rows[..|rows| - 1]);
      InsertOrIgnoreValid(InsertAll(s, rows[..|rows| - 1]), name, allowed, consumed);
    }
  }

  /** Inserting rows whose names are all present changes no row; it only uses up one id per row. */
  lemma {:induction false} InsertAllPresent(s: Store, rows: seq<(string, int, int)>)
    requires forall i :: 0 <= i < |rows| ==> rows[i].0 in s.employees
    ensures InsertAll(s, rows) == s.(nextEmployeeId := s.nextEmployeeId + |rows|)
    decreases |rows|
  {
    if rows != [] {
      InsertAllPresent(s, rows[..|rows| - 1]);
    }
  }

  /** After the inserts every name of `rows` is present, and the rows present before are untouched. */
  lemma {:induction false} InsertAllKeeps(s: Store, rows: seq<(string, int, int)>)
    ensures var s' := InsertAll(s, rows);
      && (forall i :: 0 <= i < |rows| ==> rows[i].0 in s'.employees)
      && (forall m :: m in s.employees ==> m in s'.employees && s'.employees[m] == s.employees[m])
      && s'.history == s.history
    decreases |rows|
  {
    if rows != [] {
      var front := rows[..|rows| - 1];
      var (name, allowed, consumed) := rows[|rows| - 1];
      InsertAllKeeps(s, front);
      InsertOrIgnoreKeeps(InsertAll(s, front), name, allowed, consumed);
      assert forall i :: 0 <= i < |front| ==> rows[i] == front[i];
    }
  }

  /**
    `INSERT OR IGNORE` on the UNIQUE name: seeding a seeded store again
    changes no employee and no history row; only the id counter moves on,
    by one per ignored seed row.
   */
  lemma SeedIdempotent(s: Store)
    ensures Seeded(Seeded(s)) == Seeded(s).(nextEmployeeId := Seeded(s).nextEmployeeId + 3)
  {
    InsertAllKeeps(s, SEED);
    InsertAllPresent(Seeded(s), SEED);
  }

  /** `seed_data` is three inserts in a row. */
  lemma SeedSteps(s: Store)
    ensures Seeded(s) ==
      InsertOrIgnore(InsertOrIgnore(InsertOrIgnore(s, "Alice", 20, 5), "Bob", 15, 3), "Charlie", 25, 10)
  {
    assert SEED[..2][..1] == SEED[..1] == [("Alice", 20, 5)];
    assert InsertAll(s, SEED[..1]) == InsertOrIgnore(s, "Alice", 20, 5) by {
      assert SEED[..1][..0] == [];
    }
    assert InsertAll(s, SEED[..2]) == InsertOrIgnore(InsertAll(s, SEED[..1]), "Bob", 15, 3);
  }

  /** Seeding adds the three names, keeps every existing employee as it was, and keeps the schema's guarantees. */
  lemma SeedKeeps(s: Store)
    ensures Seeded(s).employees.Keys == s.employees.Keys + {"Alice", "Bob", "Charlie"}
    ensures forall m :: m in s.employees ==> Seeded(s).employees[m] == s.employees[m]
    ensures Seeded(s).history == s.history
    ensures Valid(s) ==> Valid(Seeded(s))
  {
    var s1 := InsertOrIgnore(s, "Alice", 20, 5);
    var s2 := InsertOrIgnore(s1, "Bob", 15, 3);
    InsertOrIgnoreKeeps(s, "Alice", 20, 5);
    InsertOrIgnoreKeeps(s1, "Bob", 15, 3);
    InsertOrIgnoreKeeps(s2, "Charlie", 25, 10);
    SeedSteps(s);
    if Valid(s) {
      InsertAllValid(s, SEED);
    }
  }

  /** A new store holds exactly Alice (20, 5), Bob (15, 3) and Charlie (25, 10), ids 1 to 3, and no history. */
  lemma OpenNew()
    ensures Open(None) == Store(
      map["Alice" := Employee(1, 20, 5), "Bob" := Employee(2, 15, 3), "Charlie" := Employee(3, 25, 10)],
      [], 4, 1)
    ensures Valid(Open(None)) && Balanced(Open(None)) && NonNegative(Open(None))
  {
    SeedSteps(EmptyStore());
    SeedKeeps(EmptyStore());
    var alice, bob, charlie := Employee(1, 20, 5), Employee(2, 15, 3), Employee(3, 25, 10);
    var s1 := InsertOrIgnore(EmptyStore(), "Alice", 20, 5);
    assert s1 == Store(map["Alice" := alice], [], 2, 1);
    var s2 := InsertOrIgnore(s1, "Bob", 15, 3);
    assert "Bob" !in s1.employees;
    assert s2 == Store(map["Alice" := alice, "Bob" := bob], [], 3, 1);
    assert "Charlie" !in s2.employees;
  }

  /**
    Reopening a file that holds only Alice: her ignored insert uses up id
    2, so Bob gets 3 and Charlie 4.
   */
  lemma ReopenWithAlice()
    ensures var s := Store(map["Alice" := Employee(1, 20, 5)], [], 2, 1);
      Open(Some(s)) == Store(
        map["Alice" := Employee(1, 20, 5), "Bob" := Employee(3, 15, 3), "Charlie" := Employee(4, 25, 10)],
        [], 5, 1)
  {
    var s := Store(map["Alice" := Employee(1, 20, 5)], [], 2, 1);
    SeedSteps(s);
    var s1 := InsertOrIgnore(s, "Alice", 20, 5);
    assert s1 == s.(nextEmployeeId := 3);
    var s2 := InsertOrIgnore(s1, "Bob", 15, 3);
    assert "Bob" !in s1.employees;
    assert s2 == Store(map["Alice" := Employee(1, 20, 5), "Bob" := Employee(3, 15, 3)], [], 4, 1);
    assert "Charlie" !in s2.employees;
  }

  // ---------------------------------------------------------------------
  // Requests
  // ---------------------------------------------------------------------

  /**
    A request is granted exactly when the employee is known, asks for no
    more than the balance (equality is accepted) and fits a SQLite INTEGER;
    otherwise it is refused with the first reason that applies.
   */
  lemma RequestOutcome(s: Store, name: string, totalDays: int)
    ensures RequestResult(s, name, totalDays) == Err(EmployeeNotFound) <==> Balance(s, name) == None
    ensures RequestResult(s, name, totalDays) == Err(NotEnoughBalance) <==>
      Balance(s, name).Some? && totalDays > Balance(s, name).value
    ensures RequestResult(s, name, totalDays) == Err(IntegerOverflow) <==>
      Balance(s, name).Some? && totalDays <= Balance(s, name).value && !FitsInteger(totalDays)
    ensures RequestResult(s, name, totalDays) == Ok(SUCCESS_MESSAGE) <==>
      Balance(s, name).Some? && totalDays <= Balance(s, name).value && FitsInteger(totalDays)
    ensures Balance(s, name) == None <==>
      RequestResult(s, name, totalDays).Err? && ErrorMessage(RequestResult(s, name, totalDays).error) == "Employee not found"
    ensures Balance(s, name).Some? && totalDays > Balance(s, name).value <==>
      RequestResult(s, name, totalDays).Err? && ErrorMessage(RequestResult(s, name, totalDays).error) == "Not enough timeoff balance"
  {
  }

  /** A request below the 64-bit range passes the balance check and is still refused by the history INSERT. */
  lemma HugeNegativeRequestRefused()
    ensures var s := Open(None);
      && Balance(s, "Alice") == Some(15)
      && RequestResult(s, "Alice", INT64_MIN - 1) == Err(IntegerOverflow)
      && RequestState(s, "Alice", "2024-06-10", INT64_MIN - 1) == s
  {
    OpenNew();
  }

  /** A refused request leaves both tables and both keys unchanged. */
  lemma RefusedChangesNothing(s: Store, name: string, startDay: string, totalDays: int)
    requires RequestResult(s, name, totalDays).Err?
    ensures RequestState(s, name, startDay, totalDays) == s
  {
  }

  /**
    A granted request appends one history row for that employee and the
    given day and length, adds the days to that employee's consumption,
    and changes no other employee.
   */
  lemma GrantedEffect(s: Store, name: string, startDay: string, totalDays: int)
    requires RequestResult(s, name, totalDays).Ok?
    ensures var s' := RequestState(s, name, startDay, totalDays);
      && s'.history == s.history + [HistoryRow(s.nextHistoryId, s.employees[name].id, startDay, totalDays)]
      && s'.employees.Keys == s.employees.Keys
      && s'.employees[name].consumedDays == s.employees[name].consumedDays + totalDays
      && s'.employees[name].allowedDays == s.employees[name].allowedDays
      && s'.employees[name].id == s.employees[name].id
      && (forall m :: m in s.employees && m != name ==> s'.employees[m] == s.employees[m])
      && s'.nextEmployeeId == s.nextEmployeeId
  {
  }

  /** The balance falls by exactly the days granted, and no other balance moves. */
  lemma BalanceAfterRequest(s: Store, name: string, startDay: string, totalDays: int)
    requires RequestResult(s, name, totalDays).Ok?
    ensures Balance(RequestState(s, name, startDay, totalDays), name) == Some(Balance(s, name).value - totalDays)
    ensures forall m :: m != name ==> Balance(RequestState(s, name, startDay, totalDays), m) == Balance(s, m)
  {
  }

  /** Whatever the number of days, even a negative one, no request takes an employee past the allowance. */
  lemma RequestKeepsBalanced(s: Store, name: string, startDay: string, totalDays: int)
    requires Balanced(s)
    ensures Balanced(RequestState(s, name, startDay, totalDays))
  {
  }

  /** Consumption stays non-negative only for requests of a non-negative length, which the code does not check. */
  lemma RequestKeepsNonNegative(s: Store, name: string, startDay: string, totalDays: int)
    requires NonNegative(s) && totalDays >= 0
    ensures NonNegative(RequestState(s, name, startDay, totalDays))
  {
  }

  /** A negative request with enough balance is granted and drives the consumption below zero. */
  lemma NegativeRequestGranted()
    ensures var s := Open(None);
      && RequestResult(s, "Bob", -10) == Ok(SUCCESS_MESSAGE)
      && RequestState(s, "Bob", "2024-06-10", -10).employees["Bob"].consumedDays == -7
  {
    OpenNew();
  }

  lemma RequestKeepsValid(s: Store, name: string, startDay: string, totalDays: int)
    requires Valid(s)
    ensures Valid(RequestState(s, name, startDay, totalDays))
  {
    if RequestResult(s, name, totalDays).Ok? {
      var s' := RequestState(s, name, startDay, totalDays);
      assert EmployeeIds(s') == EmployeeIds(s) by {
        forall id | id in EmployeeIds(s) ensures id in EmployeeIds(s') {
          var n :| n in s.employees && s.employees[n].id == id;
          assert s'.employees[n].id == id;
        }
        forall id | id in EmployeeIds(s') ensures id in EmployeeIds(s) {
          var n :| n in s'.employees && s'.employees[n].id == id;
          assert s.employees[n].id == id;
        }
      }
      assert s.employees[name].id in EmployeeIds(s);
    }
  }

  lemma RecordedAppend(history: seq<HistoryRow>, row: HistoryRow, id: nat)
    ensures Recorded(history + [row], id) == Recorded(history, id) + (if row.employeeId == id then row.totalDays else 0)
  {
    assert (history + [row])[..|history|] == history;
  }

  /**
    The ledger balances: for every employee, the days consumed minus the
    days recorded in the history is the same before and after any request.
   */
  lemma RequestKeepsLedger(s: Store, name: string, startDay: string, totalDays: int, m: string)
    requires Valid(s) && m in s.employees
    ensures var s' := RequestState(s, name, startDay, totalDays);
      && m in s'.employees
      && s'.employees[m].consumedDays - Recorded(s'.history, s'.employees[m].id)
         == s.employees[m].consumedDays - Recorded(s.history, s.employees[m].id)
  {
    if RequestResult(s, name, totalDays).Ok? {
      var e := s.employees[name];
      RecordedAppend(s.history, HistoryRow(s.nextHistoryId, e.id, startDay, totalDays), s.employees[m].id);
    }
  }

  /**
    Two requests that each fit the balance but not together: the first is
    granted and the second refused for want of balance.
   */
  lemma SecondRequestRefused(s: Store, name: string, day1: string, n1: int, day2: string, n2: int)
    requires Balance(s, name).Some? && FitsInteger(n1)
    requires 0 <= n1 <= Balance(s, name).value && 0 <= n2 <= Balance(s, name).value
    requires n1 + n2 > Balance(s, name).value
    ensures RequestResult(s, name, n1) == Ok(SUCCESS_MESSAGE)
    ensures RequestResult(RequestState(s, name, day1, n1), name, n2) == Err(NotEnoughBalance)
    ensures RequestState(RequestState(s, name, day1, n1), name, day2, n2) == RequestState(s, name, day1, n1)
  {
    BalanceAfterRequest(s, name, day1, n1);
  }

  /** The demonstration: Alice has 15 days left, asks for 2, and then has 13. */
  lemma AliceDemo()
    ensures Balance(Open(None), "Alice") == Some(15)
    ensures RequestResult(Open(None), "Alice", 2) == Ok(SUCCESS_MESSAGE)
    ensures Balance(RequestState(Open(None), "Alice", "2024-06-10", 2), "Alice") == Some(13)
  {
    OpenNew();
  }

  // ---------------------------------------------------------------------
  // The datastore object
  // ---------------------------------------------------------------------

  class TimeOffDatastore {
    var employees: map<string, Employee>
    var history: seq<HistoryRow>
    var nextEmployeeId: nat
    var nextHistoryId: nat

    function State(): Store
      reads this
    {
      Store(employees, history, nextEmployeeId, nextHistoryId)
    }

    /** `__init__(db_path)`: `existing` is what the database file already holds (`None` for `":memory:"`). */
    constructor (existing: Option<Store>)
      ensures State() == Open(existing)
    {
      var s := CreateTables(existing);
      employees, history := s.employees, s.history;
      nextEmployeeId, nextHistoryId := s.nextEmployeeId, s.nextHistoryId;
      new;
      SeedData();
    }

    /** One `INSERT OR IGNORE INTO employee`. */
    method InsertEmployee(name: string, allowed: int, consumed: int)
      modifies this
      ensures State() == InsertOrIgnore(old(State()), name, allowed, consumed)
    {
      if name !in employees {
        employees := employees[name := Employee(nextEmployeeId, allowed, consumed)];
      }
      nextEmployeeId := nextEmployeeId + 1;
    }

    /** `seed_data`: one insert per seed row. */
    method SeedData()
      modifies this
      ensures State() == Seeded(old(State()))
    {
      ghost var start := State();
      var i := 0;
      while i < |SEED|
        invariant 0 <= i <= |SEED|
        invariant State() == InsertAll(start, SEED[..i])
      {
        var (name, allowed, consumed) := SEED[i];
        InsertEmployee(name, allowed, consumed);
        assert SEED[..i + 1][..i] == SEED[..i];
        i := i + 1;
      }
      assert SEED[..i] == SEED;
    }

    /** `get_timeoff_balance`: a read that changes nothing. */
    method GetTimeoffBalance(name: string) returns (r: Option<int>)
      ensures r == Balance(State(), name)
      ensures r.Some? <==> name in employees
      ensures r.Some? ==> r.value == employees[name].allowedDays - employees[name].consumedDays
    {
      if name in employees {
        var row := employees[name];
        r := Some(row.allowedDays - row.consumedDays);
      } else {
        r := None;
      }
    }

    /** `add_timeoff_request`: read the row, check the balance, then insert the history row and update the employee. */
    method AddTimeoffRequest(name: string, startDay: string, totalDays: int) returns (r: Result<string, LedgerError>)
      modifies this
      ensures r == RequestResult(old(State()), name, totalDays)
      ensures State() == RequestState(old(State()), name, startDay, totalDays)
    {
      if name !in employees {
        return Err(EmployeeNotFound);
      }
      var row := employees[name];
      if row.consumedDays + totalDays > row.allowedDays {
        return Err(NotEnoughBalance);
      }
      if !FitsInteger(totalDays) {
        return Err(IntegerOverflow);
      }
      history := history + [HistoryRow(nextHistoryId, row.id, startDay, totalDays)];
      nextHistoryId := nextHistoryId + 1;
      employees := employees[name := row.(consumedDays := row.consumedDays + totalDays)];
      r := Ok(SUCCESS_MESSAGE);
    }
  }
}
