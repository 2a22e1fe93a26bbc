/** API keys of system accounts: creation, rotation with a grace period, revocation. Each
    request is one transaction, or one statement; a key is named by its hash. */
module Keys {
  import opened Tables

  type Hash = string

  datatype KeyStatus = InUse | Grace(expires: int) | Revoked
  datatype Key = Key(account: Id, status: KeyStatus)

  /** `accounts` maps an account to its name. */
  datatype Book = Book(accounts: map<Id, string>, keys: map<Hash, Key>, next: Id)

  function Principal(name: string): string {
    "system:" + name
  }

  predicate NameTaken(book: Book, name: string) {
    exists a :: a in book.accounts && book.accounts[a] == name
  }

  function Create(book: Book, name: string, hash: Hash): Result<Book> {
    if NameTaken(book, name) || hash in book.keys then Err(Invalid)
    else Ok(Book(book.accounts[book.next := name], book.keys[hash := Key(book.next, InUse)], book.next + 1))
  }

  function RotatedOut(key: Key, account: Id, grace: int, now: int): Key {
    if key.account == account && key.status.InUse?
    then key.(status := if grace > 0 then Grace(now + grace) else Revoked) else key
  }

  function Retire(book: Book, account: Id, grace: int, now: int): Book {
    book.(keys := map h | h in book.keys :: RotatedOut(book.keys[h], account, grace, now))
  }

  function InsertKey(book: Book, account: Id, hash: Hash): Result<Book> {
    if account !in book.accounts then Err(ForeignKey)
    else if hash in book.keys then Err(Invalid)
    else Ok(book.(keys := book.keys[hash := Key(account, InUse)]))
  }

  /** The old keys go first, then the new one comes; if it cannot, nothing has happened. */
  function Rotate(book: Book, account: Id, grace: int, hash: Hash, now: int): Result<Book> {
    InsertKey(Retire(book, account, grace, now), account, hash)
  }

  function Revoke(book: Book, account: Id): Book {
    book.(keys := map h | h in book.keys ::
            if book.keys[h].account == account then book.keys[h].(status := Revoked) else book.keys[h])
  }

  /** The keys of an account are deleted with it. */
  function Delete(book: Book, account: Id): Result<Book> {
    if account !in book.accounts then Err(NotFound)
    else Ok(book.(accounts := book.accounts - {account},
                  keys := map h | h in book.keys && book.keys[h].account != account :: book.keys[h]))
  }

  /** LookupKeyHash: the principal, if the key is in use or its grace has not run out. */
  function Lookup(book: Book, hash: Hash, now: int): Option<string> {
    if hash in book.keys && book.keys[hash].account in book.accounts && !book.keys[hash].status.Revoked? &&
       (book.keys[hash].status.Grace? ==> now <= book.keys[hash].status.expires)
    then Some(Principal(book.accounts[book.keys[hash].account])) else None
  }

  // ----- histories -----------------------------------------------------------------------------

  datatype Op = Creates(name: string, hash: Hash) | Rotates(account: Id, grace: int, hash: Hash) | Revokes(account: Id) | Deletes(account: Id)

  /** An operation and the time on the clock; one that fails leaves the tables alone. */
  datatype Event = Event(op: Op, at: int)

  function Or(r: Result<Book>, book: Book): Book {
    if r.Ok? then r.value else book
  }

  function Apply(book: Book, e: Event): Book {
    match e.op
    case Creates(name, hash) => Or(Create(book, name, hash), book)
    case Rotates(account, grace, hash) => Or(Rotate(book, account, grace, hash, e.at), book)
    case Revokes(account) => Revoke(book, account)
    case Deletes(account) => Or(Delete(book, account), book)
  }

  function Run(book: Book, run: seq<Event>): Book
    decreases |run|
  {
    if run == [] then book else Run(Apply(book, run[0]), run[1..])
  }

  function Issues(op: Op): set<Hash> {
    if op.Creates? || op.Rotates? then {op.hash} else {}
  }

  /** The clock does not run backwards, and the generator never repeats a key. */
  predicate Legal(run: seq<Event>, issued: set<Hash>, now: int) {
    run == [] ||
    (now <= run[0].at && Issues(run[0].op) !! issued && Legal(run[1..], issued + Issues(run[0].op), run[0].at))
  }

  predicate Consistent(book: Book, issued: set<Hash>) {
    && book.keys.Keys <= issued
    && (forall a | a in book.accounts :: a < book.next)
    && (forall h | h in book.keys :: book.keys[h].account in book.accounts)
    && (forall g, h | g in book.keys && h in book.keys && g != h && book.keys[g].status.InUse? && book.keys[h].status.InUse? ::
          book.keys[g].account != book.keys[h].account)
  }

  lemma StepKeepsConsistent(book: Book, e: Event, issued: set<Hash>)
    requires Consistent(book, issued) && Issues(e.op) !! issued
    ensures Consistent(Apply(book, e), issued + Issues(e.op))
  {
  }

  /** In use, then in grace until a fixed time, then revoked, then gone: never back. */
  predicate MovesOn(book: Book, book': Book, hash: Hash) {
    if hash !in book.keys then hash !in book'.keys
    else
      hash in book'.keys ==>
        && book'.keys[hash].account == book.keys[hash].account
        && (book.keys[hash].status.Revoked? ==> book'.keys[hash].status.Revoked?)
        && (book.keys[hash].status.Grace? ==> book'.keys[hash].status in {book.keys[hash].status, Revoked})
  }

  lemma StepMovesOn(book: Book, e: Event, hash: Hash)
    requires hash !in Issues(e.op)
    ensures MovesOn(book, Apply(book, e), hash)
  {
  }

  /** Over every history: one key in use per account at most, and no key moves back. */
  lemma {:induction false} KeysOnlyAge(book: Book, run: seq<Event>, issued: set<Hash>, now: int, hash: Hash)
    requires Consistent(book, issued) && Legal(run, issued, now) && hash in issued
    ensures exists all :: issued <= all && Consistent(Run(book, run), all)
    ensures MovesOn(book, Run(book, run), hash)
    decreases |run|
  {
    if run == [] {
      assert Consistent(Run(book, run), issued);
    } else {
      var next := Apply(book, run[0]);
      StepKeepsConsistent(book, run[0], issued);
      StepMovesOn(book, run[0], hash);
      KeysOnlyAge(next, run[1..], issued + Issues(run[0].op), run[0].at, hash);
    }
  }

  /** A key once rejected stays rejected. */
  lemma RejectedForGood(book: Book, run: seq<Event>, issued: set<Hash>, now: int, hash: Hash, later: int)
    requires Consistent(book, issued) && Legal(run, issued, now) && hash in issued && now <= later
    requires Lookup(book, hash, now).None?
    ensures Lookup(Run(book, run), hash, later).None?
  {
    KeysOnlyAge(book, run, issued, now, hash);
  }

  // ----- new keys ----------------------------------------------------------------------------------

  /** Creating an account succeeds unless its name or the key is taken. The account gets its
      key, which is accepted at any time as the account's principal; nothing else changes. */
  lemma CreationIssuesAKey(book: Book, name: string, hash: Hash, at: int)
    requires forall h | h in book.keys :: book.keys[h].account in book.accounts && book.keys[h].account < book.next
    ensures Create(book, name, hash).Err? <==> (exists a :: a in book.accounts && book.accounts[a] == name) || hash in book.keys
    ensures Create(book, name, hash).Ok? ==>
      var after := Create(book, name, hash).value;
      && after.accounts == book.accounts[book.next := name] && after.next == book.next + 1
      && KeysInUse(after, book.next) == {hash} && after.keys.Keys == book.keys.Keys + {hash}
      && (forall h | h in book.keys :: after.keys[h] == book.keys[h])
      && Lookup(after, hash, at) == Some("system:" + name)
  {
  }

  /** Rotation fails exactly for a missing account or a key that is taken. Otherwise the new
      key is the only one of the account in use, accepted at any time as its principal; the
      old one is accepted for the grace given from now; nothing else changes. */
  lemma RotationReplacesTheKey(book: Book, account: Id, grace: int, hash: Hash, now: int, at: int)
    ensures Rotate(book, account, grace, hash, now).Ok? <==> account in book.accounts && hash !in book.keys
    ensures Rotate(book, account, grace, hash, now).Ok? ==>
      var after := Rotate(book, account, grace, hash, now).value;
      && after.accounts == book.accounts && after.next == book.next && after.keys.Keys == book.keys.Keys + {hash}
      && KeysInUse(after, account) == {hash} && Lookup(after, hash, at) == Some("system:" + book.accounts[account])
      && forall h | h in book.keys ::
           if h in KeysInUse(book, account) then
             Lookup(after, h, at) == if grace > 0 && at <= now + grace then Some("system:" + book.accounts[account]) else None
           else after.keys[h] == book.keys[h]
  {
  }

  /** A rotation is its two statements, the update of the old keys and then the insert. */
  lemma RotationIsItsStatements(book: Book, account: Id, grace: int, hash: Hash, now: int)
    requires account in book.accounts && hash !in book.keys
    ensures Rotate(book, account, grace, hash, now) == Ok(Steps(book, account, [Retires(grace, now), Inserts(hash)]))
  {
    var ss := [Retires(grace, now), Inserts(hash)];
    assert ss[..1] == [Retires(grace, now)] && ss[..1][..0] == [];
    assert Steps(book, account, ss[..1]) == Retire(book, account, grace, now);
  }

  /** An account is deleted with its keys, and nothing else. */
  lemma DeletionTakesTheKeys(book: Book, account: Id)
    ensures Delete(book, account).Ok? <==> account in book.accounts
    ensures account in book.accounts ==>
      var after := Delete(book, account).value;
      && after.accounts == book.accounts - {account} && after.next == book.next
      && (forall h :: h in after.keys <==> h in book.keys && book.keys[h].account != account)
      && (forall h | h in after.keys :: after.keys[h] == book.keys[h])
  {
  }

  // ----- how long a key is good ------------------------------------------------------------------

  /** No RevokeKey of the account and no deletion of it. */
  predicate Untouched(run: seq<Event>, account: Id) {
    forall e | e in run :: e.op != Revokes(account) && e.op != Deletes(account)
  }

  /** A key in its grace period is good exactly while the period lasts and nobody revokes. */
  lemma {:induction false} GraceIsExact(book: Book, run: seq<Event>, issued: set<Hash>, now: int, hash: Hash, later: int)
    requires Consistent(book, issued) && Legal(run, issued, now) && hash in book.keys && book.keys[hash].status.Grace?
    ensures Lookup(Run(book, run), hash, later) ==
            if later <= book.keys[hash].status.expires && Untouched(run, book.keys[hash].account)
            then Some("system:" + book.accounts[book.keys[hash].account]) else None
    decreases |run|
  {
    if run != [] {
      var e, account := run[0], book.keys[hash].account;
      var next, issued' := Apply(book, e), issued + Issues(e.op);
      StepKeepsConsistent(book, e, issued);
      assert run == [e] + run[1..];
      if e.op == Revokes(account) || e.op == Deletes(account) {
        assert e in run;
        RevokedIsRevoked(next, run[1..], issued', e.at, hash, later);
      } else {
        GraceIsExact(next, run[1..], issued', e.at, hash, later);
      }
    }
  }

  lemma RevokedIsRevoked(book: Book, run: seq<Event>, issued: set<Hash>, now: int, hash: Hash, later: int)
    requires Consistent(book, issued) && Legal(run, issued, now) && hash in issued
    requires hash !in book.keys || book.keys[hash].status.Revoked?
    ensures Lookup(Run(book, run), hash, later).None?
  {
    KeysOnlyAge(book, run, issued, now, hash);
  }

  /** What a history means for the key its account uses when it begins. */
  predicate StillGood(run: seq<Event>, account: Id, later: int) {
    if run == [] then true
    else if run[0].op == Revokes(account) || run[0].op == Deletes(account) then false
    else if run[0].op.Rotates? && run[0].op.account == account then
      run[0].op.grace > 0 && later <= run[0].at + run[0].op.grace && Untouched(run[1..], account)
    else StillGood(run[1..], account, later)
  }

  /** A key in use is good until its account is rotated, and then exactly for the grace
      given; a revocation or a deletion ends it at once. */
  lemma {:induction false} KeyIsGoodIff(book: Book, run: seq<Event>, issued: set<Hash>, now: int, hash: Hash, later: int)
    requires Consistent(book, issued) && Legal(run, issued, now) && hash in book.keys && book.keys[hash].status.InUse?
    ensures Lookup(Run(book, run), hash, later) ==
            if StillGood(run, book.keys[hash].account, later) then Some("system:" + book.accounts[book.keys[hash].account]) else None
    decreases |run|
  {
    if run != [] {
      var e, account := run[0], book.keys[hash].account;
      var next, issued' := Apply(book, e), issued + Issues(e.op);
      StepKeepsConsistent(book, e, issued);
      if e.op == Revokes(account) || e.op == Deletes(account) {
        RevokedIsRevoked(next, run[1..], issued', e.at, hash, later);
      } else if e.op.Rotates? && e.op.account == account {
        if e.op.grace > 0 {
          GraceIsExact(next, run[1..], issued', e.at, hash, later);
        } else {
          RevokedIsRevoked(next, run[1..], issued', e.at, hash, later);
        }
      } else {
        KeyIsGoodIff(next, run[1..], issued', e.at, hash, later);
      }
    }
  }

  /** A key just issued, by a creation or a rotation, is good for as long as what follows
      leaves it: no history before it matters. */
  lemma IssuedKeyIsGoodIff(book: Book, e: Event, run: seq<Event>, issued: set<Hash>, now: int, later: int)
    requires Consistent(book, issued) && Legal([e] + run, issued, now)
    requires e.op.Creates? || e.op.Rotates?
    requires if e.op.Creates? then !NameTaken(book, e.op.name) else e.op.account in book.accounts
    ensures var account := if e.op.Creates? then book.next else e.op.account;
            var name := if e.op.Creates? then e.op.name else book.accounts[e.op.account];
            Lookup(Run(book, [e] + run), e.op.hash, later) == if StillGood(run, account, later) then Some("system:" + name) else None
  {
    var next, issued' := Apply(book, e), issued + Issues(e.op);
    assert ([e] + run)[0] == e && ([e] + run)[1..] == run;
    StepKeepsConsistent(book, e, issued);
    KeyIsGoodIff(next, run, issued', e.at, e.op.hash, later);
  }

  // ----- rotations that overlap ---------------------------------------------------------------------

  /** The statements of transactions on one account, in the order in which they take effect:
      read-committed isolation allows any. A rotation is a Retires and later an Inserts. */
  datatype Statement = Retires(grace: int, at: int) | Inserts(hash: Hash) | RevokesAll

  function Step(book: Book, account: Id, s: Statement): Book {
    match s
    case Retires(grace, at) => Retire(book, account, grace, at)
    case Inserts(hash) => Or(InsertKey(book, account, hash), book)
    case RevokesAll => Revoke(book, account)
  }

  function Steps(book: Book, account: Id, ss: seq<Statement>): Book {
    if ss == [] then book else Step(Steps(book, account, ss[..|ss| - 1]), account, ss[|ss| - 1])
  }

  function KeysInUse(book: Book, account: Id): set<Hash> {
    set h | h in book.keys && book.keys[h].account == account && book.keys[h].status.InUse?
  }

  /** The keys inserted since the last statement that takes keys out of use; with no such
      statement the keys in use at the start count as well. */
  function Since(ss: seq<Statement>, start: set<Hash>): set<Hash> {
    if ss == [] then start
    else
      var last := ss[|ss| - 1];
      if last.Inserts? then Since(ss[..|ss| - 1], start) + {last.hash} else {}
  }

  /** The generator never repeats a key. */
  predicate FreshHashes(ss: seq<Statement>, taken: set<Hash>) {
    && (forall i | 0 <= i < |ss| && ss[i].Inserts? :: ss[i].hash !in taken)
    && (forall i, j | 0 <= i < j < |ss| && ss[i].Inserts? && ss[j].Inserts? :: ss[i].hash != ss[j].hash)
  }

  /** Whatever the order: the keys in use at the end are exactly those inserted since keys
      were last taken out of use. */
  lemma {:induction false} OverlapsLeave(book: Book, account: Id, ss: seq<Statement>)
    requires account in book.accounts && FreshHashes(ss, book.keys.Keys)
    ensures var end := Steps(book, account, ss);
            && KeysInUse(end, account) == Since(ss, KeysInUse(book, account))
            && end.accounts == book.accounts
            && forall h | h in end.keys :: h in book.keys || exists i :: 0 <= i < |ss| && ss[i] == Inserts(h)
  {
    if ss != [] {
      var n := |ss| - 1;
      OverlapsLeave(book, account, ss[..n]);
      var before := Steps(book, account, ss[..n]);
      if ss[n].Inserts? {
        assert ss[n].hash !in before.keys;
        assert KeysInUse(Step(before, account, ss[n]), account) == KeysInUse(before, account) + {ss[n].hash};
      } else {
        assert KeysInUse(Step(before, account, ss[n]), account) == {};
      }
    }
  }

  /** How many statements insert a key after the last that takes keys out of use. */
  function InsertsSince(ss: seq<Statement>): nat {
    if ss == [] || !ss[|ss| - 1].Inserts? then 0 else InsertsSince(ss[..|ss| - 1]) + 1
  }

  predicate Retiring(ss: seq<Statement>) {
    exists i :: 0 <= i < |ss| && !ss[i].Inserts?
  }

  lemma {:induction false} SinceAreInserted(ss: seq<Statement>, start: set<Hash>, h: Hash)
    requires h in Since(ss, start)
    ensures h in start || exists i :: 0 <= i < |ss| && ss[i] == Inserts(h)
  {
    var n := |ss| - 1;
    if ss != [] && h in Since(ss[..n], start) {
      SinceAreInserted(ss[..n], start, h);
    }
  }

  lemma LastIsNew(ss: seq<Statement>, start: set<Hash>)
    requires ss != [] && ss[|ss| - 1].Inserts? && FreshHashes(ss, start)
    ensures ss[|ss| - 1].hash !in Since(ss[..|ss| - 1], start)
  {
    var n := |ss| - 1;
    if ss[n].hash in Since(ss[..n], start) {
      SinceAreInserted(ss[..n], start, ss[n].hash);
    }
  }

  lemma RetiringBefore(ss: seq<Statement>)
    requires ss != [] && ss[|ss| - 1].Inserts?
    ensures Retiring(ss) <==> Retiring(ss[..|ss| - 1])
  {
    if i :| 0 <= i < |ss| && !ss[i].Inserts? {
      assert ss[..|ss| - 1][i] == ss[i];
    }
  }

  lemma {:induction false} SinceCounts(ss: seq<Statement>, start: set<Hash>)
    requires FreshHashes(ss, start)
    ensures |Since(ss, start)| == InsertsSince(ss) + if Retiring(ss) then 0 else |start|
  {
    if ss != [] && ss[|ss| - 1].Inserts? {
      SinceCounts(ss[..|ss| - 1], start);
      LastIsNew(ss, start);
      RetiringBefore(ss);
    }
  }

  /** Overlapping rotations keep the rule exactly when one insert follows the last update. */
  lemma OneKeyIff(book: Book, account: Id, ss: seq<Statement>)
    requires account in book.accounts && FreshHashes(ss, book.keys.Keys) && Retiring(ss)
    ensures |KeysInUse(Steps(book, account, ss), account)| == InsertsSince(ss)
    ensures |KeysInUse(Steps(book, account, ss), account)| == 1 <==> InsertsSince(ss) == 1
  {
    OverlapsLeave(book, account, ss);
    SinceCounts(ss, KeysInUse(book, account));
  }

  lemma LateInserts(r1: Statement, r2: Statement, g: Hash, h: Hash, start: set<Hash>)
    requires r1.Retires? && r2.Retires?
    ensures Since([r1, r2, Inserts(g), Inserts(h)], start) == {g, h}
  {
    var ss := [r1, r2, Inserts(g), Inserts(h)];
    assert ss[..3] == [r1, r2, Inserts(g)] && ss[..3][..2] == [r1, r2];
    assert Since(ss[..3][..2], start) == {};
    assert Since(ss[..3], start) == {g};
  }

  /** Two rotations, each with its own grace and clock, whose updates both come before the
      first insert leave two keys in use. */
  lemma OverlappingRotations(book: Book, account: Id, r1: Statement, r2: Statement, g: Hash, h: Hash)
    requires account in book.accounts && g !in book.keys && h !in book.keys && g != h && r1.Retires? && r2.Retires?
    ensures KeysInUse(Steps(book, account, [r1, r2, Inserts(g), Inserts(h)]), account) == {g, h}
  {
    OverlapsLeave(book, account, [r1, r2, Inserts(g), Inserts(h)]);
    LateInserts(r1, r2, g, h, KeysInUse(book, account));
  }

  // ----- the store ---------------------------------------------------------------------------------

  class SystemAccountStore {
    var accounts: map<Id, string>
    var keys: map<Hash, Key>
    var next: Id

    function State(): Book
      reads this
    {
      Book(accounts, keys, next)
    }

    constructor ()
      ensures State() == Book(map[], map[], 0)
      ensures Consistent(State(), {})
    {
      accounts, keys, next := map[], map[], 0;
    }

    method CreateAccount(name: string, hash: Hash) returns (r: Result<Id>)
      modifies this
      ensures match Create(old(State()), name, hash)
              case Ok(book) => r == Ok(old(next)) && State() == book
              case Err(e) => r == Err(e) && State() == old(State())
    {
      if NameTaken(State(), name) || hash in keys {
        return Err(Invalid);
      }
      r := Ok(next);
      accounts := accounts[next := name];
      keys := keys[hash := Key(next, InUse)];
      next := next + 1;
    }

    /** The transaction: the update of the old keys is rolled back when the insert fails. */
    method RotateKey(account: Id, gracePeriod: int, hash: Hash, now: int) returns (r: Result<()>)
      modifies this
      ensures match Rotate(old(State()), account, gracePeriod, hash, now)
              case Ok(book) => r == Ok(()) && State() == book
              case Err(e) => r == Err(e) && State() == old(State())
    {
      var before := keys;
      if gracePeriod > 0 {
        var graceExpiry := now + gracePeriod;
        keys := map h | h in keys ::
          if keys[h].account == account && keys[h].status.InUse? then keys[h].(status := Grace(graceExpiry)) else keys[h];
      } else {
        keys := map h | h in keys ::
          if keys[h].account == account && keys[h].status.InUse? then keys[h].(status := Revoked) else keys[h];
      }
      if account !in accounts {
        keys := before;
        return Err(ForeignKey);
      }
      if hash in keys {
        keys := before;
        return Err(Invalid);
      }
      keys := keys[hash := Key(account, InUse)];
      r := Ok(());
    }

    method RevokeKey(account: Id)
      modifies this
      ensures State() == Revoke(old(State()), account)
    {
      keys := map h | h in keys :: if keys[h].account == account then keys[h].(status := Revoked) else keys[h];
    }

    method DeleteAccount(account: Id) returns (r: Result<()>)
      modifies this
      ensures match Delete(old(State()), account)
              case Ok(book) => r == Ok(()) && State() == book
              case Err(e) => r == Err(e) && State() == old(State())
    {
      if account !in accounts {
        return Err(NotFound);
      }
      accounts := accounts - {account};
      keys := map h | h in keys && keys[h].account != account :: keys[h];
      r := Ok(());
    }

    method LookupKeyHash(hash: Hash, now: int) returns (principal: Option<string>)
      ensures principal == Lookup(State(), hash, now)
    {
      if hash !in keys || keys[hash].account !in accounts || keys[hash].status.Revoked? {
        return None;
      }
      if keys[hash].status.Grace? && now > keys[hash].status.expires {
        return None;
      }
      principal := Some(Principal(accounts[keys[hash].account]));
    }
  }
}
