/**
 * The database behind the handlers: four tables keyed by their primary keys,
 * with serial counters for the integer keys. Each method is one storage
 * call; its contract gives the rows it returns and the tables afterwards.
 */
module Storage {
  import opened Wrappers
  import opened Schema
  import opened Ordering

  /**
   * The optional `authorId` of the list and count queries. The filter is
   * applied only when the id is truthy, so an empty id filters nothing.
   */
  type Scope = Option<string>

  predicate InScope(owner: string, scope: Scope) {
    scope.None? || scope.value == "" || owner == scope.value
  }

  function PassportUpdatedAt(p: Passport): int { p.updatedAt }
  function PassportId(p: Passport): int { p.id }
  function ComponentCreatedAt(c: Component): int { c.createdAt }
  function ComponentId(c: Component): int { c.id }

  datatype DashboardStats = DashboardStats(totalPassports: nat, completed: nat, inProgress: nat, totalComponents: nat)

  function StatusOf(p: Passport): Value { p.Get(Status) }

  /** Passport rows sit under their own ids, below the counter, and obey the schema. */
  predicate PassportRows(passports: map<int, Passport>, next: int) {
    forall k | k in passports :: passports[k].id == k && 0 < k < next && WellFormed(passports[k].attrs)
  }

  /** A well-formed row under the counter's id keeps the rows in order once the counter moves on. */
  lemma PassportRowAdded(passports: map<int, Passport>, next: int, p: Passport)
    requires PassportRows(passports, next) && next >= 1
    requires p.id == next && WellFormed(p.attrs)
    ensures next !in passports
    ensures PassportRows(passports[next := p], next + 1)
  {
  }

  class Store {
    var users: map<string, User>
    var passports: map<int, Passport>
    var components: map<int, Component>
    var jobs: map<int, ImportJob>
    var nextPassportId: int
    var nextComponentId: int
    var nextJobId: int

    /** Rows sit under their own keys, serial keys lie below their counters, passports obey the schema. */
    predicate Valid()
      reads this
    {
      && (forall k | k in users :: users[k].id == k)
      && PassportRows(passports, nextPassportId)
      && (forall k | k in components :: components[k].id == k && 0 < k < nextComponentId)
      && (forall k | k in jobs :: jobs[k].id == k && 0 < k < nextJobId)
      && nextPassportId >= 1 && nextComponentId >= 1 && nextJobId >= 1
    }

    constructor ()
      ensures Valid()
      ensures users == map[] && passports == map[] && components == map[] && jobs == map[]
      ensures nextPassportId == 1 && nextComponentId == 1 && nextJobId == 1
    {
      users := map[];
      passports := map[];
      components := map[];
      jobs := map[];
      nextPassportId := 1;
      nextComponentId := 1;
      nextJobId := 1;
    }

    function GetUser(id: string): (r: Option<User>)
      reads this
      ensures r.Some? <==> id in users
      ensures r.Some? ==> r.value == users[id]
    {
      if id in users then Some(users[id]) else None
    }

    /** Insert the user, or on a clash of ids overwrite the supplied columns and stamp `updatedAt`. */
    method UpsertUser(data: UpsertUserData, now: int) returns (u: User)
      requires Valid()
      modifies this
      ensures Valid()
      ensures u == if data.id in old(users) then UpdatedUser(old(users)[data.id], data, now) else NewUser(data, now)
      ensures users == old(users)[data.id := u]
      ensures passports == old(passports) && components == old(components) && jobs == old(jobs)
      ensures nextPassportId == old(nextPassportId) && nextComponentId == old(nextComponentId) && nextJobId == old(nextJobId)
    {
      if data.id in users {
        u := UpdatedUser(users[data.id], data, now);
      } else {
        u := NewUser(data, now);
      }
      users := users[data.id := u];
    }

    /**
     * Passports of the scope, most recently updated first: each row of the
     * scope exactly once and no row outside it.
     */
    method GetMaterialPassports(scope: Scope) returns (r: seq<Passport>)
      requires Valid()
      ensures NonIncreasing(r, PassportUpdatedAt) && DistinctIds(r, PassportId)
      ensures forall p | p in r :: p.id in passports && passports[p.id] == p && InScope(p.authorId, scope)
      ensures forall id | id in passports && InScope(passports[id].authorId, scope) :: passports[id] in r
    {
      r := CollectNewestFirst(passports, (p: Passport) => InScope(p.authorId, scope), PassportUpdatedAt, PassportId);
    }

    /** Lookup by id alone: no ownership check. */
    function GetMaterialPassport(id: int): (r: Option<Passport>)
      reads this
      ensures r.Some? <==> id in passports
      ensures r.Some? ==> r.value == passports[id]
    {
      if id in passports then Some(passports[id]) else None
    }

    /** A new row under the next serial id, with the column defaults filled in. */
    method CreateMaterialPassport(payload: Payload, authorId: string, now: int) returns (p: Passport)
      requires Valid() && ValidPayload(payload, false)
      modifies this
      ensures Valid()
      ensures p == NewPassport(old(nextPassportId), payload, authorId, now)
      ensures p.id !in old(passports)
      ensures passports == old(passports)[p.id := p] && nextPassportId == old(nextPassportId) + 1
      ensures users == old(users) && components == old(components) && jobs == old(jobs)
      ensures nextComponentId == old(nextComponentId) && nextJobId == old(nextJobId)
    {
      p := NewPassport(nextPassportId, payload, authorId, now);
      PassportRowAdded(passports, nextPassportId, p);
      passports := passports[p.id := p];
      nextPassportId := nextPassportId + 1;
    }

    /** The row's author alone can change it; otherwise nothing changes and no row comes back. */
    predicate OwnedBy(id: int, authorId: string)
      reads this
    {
      id in passports && passports[id].authorId == authorId
    }

    method UpdateMaterialPassport(id: int, patch: Payload, authorId: string, now: int) returns (r: Option<Passport>)
      requires Valid() && ValidPayload(patch, true)
      modifies this
      ensures Valid()
      ensures r.Some? <==> old(OwnedBy(id, authorId))
      ensures r.Some? ==> r.value == UpdatedPassport(old(passports)[id], patch, now)
      ensures passports == if r.Some? then old(passports)[id := r.value] else old(passports)
      ensures users == old(users) && components == old(components) && jobs == old(jobs)
      ensures nextPassportId == old(nextPassportId) && nextComponentId == old(nextComponentId) && nextJobId == old(nextJobId)
    {
      if OwnedBy(id, authorId) {
        var p := UpdatedPassport(passports[id], patch, now);
        passports := passports[id := p];
        r := Some(p);
      } else {
        r := None;
      }
    }

    /** Deletes the row when id and author both match; reports whether a row went. */
    method DeleteMaterialPassport(id: int, authorId: string) returns (deleted: bool)
      requires Valid()
      modifies this
      ensures Valid()
      ensures deleted <==> old(OwnedBy(id, authorId))
      ensures passports == if deleted then old(passports) - {id} else old(passports)
      ensures users == old(users) && components == old(components) && jobs == old(jobs)
      ensures nextPassportId == old(nextPassportId) && nextComponentId == old(nextComponentId) && nextJobId == old(nextJobId)
    {
      deleted := OwnedBy(id, authorId);
      if deleted {
        passports := passports - {id};
      }
    }

    /** Components of the scope, newest first, each exactly once. */
    method GetComponents(scope: Scope) returns (r: seq<Component>)
      requires Valid()
      ensures NonIncreasing(r, ComponentCreatedAt) && DistinctIds(r, ComponentId)
      ensures forall c | c in r :: c.id in components && components[c.id] == c && InScope(c.authorId, scope)
      ensures forall id | id in components && InScope(components[id].authorId, scope) :: components[id] in r
    {
      r := CollectNewestFirst(components, (c: Component) => InScope(c.authorId, scope), ComponentCreatedAt, ComponentId);
    }

    method CreateComponent(data: NewComponentData, authorId: string, now: int) returns (c: Component)
      requires Valid()
      modifies this
      ensures Valid()
      ensures c == NewComponent(old(nextComponentId), data, authorId, now)
      ensures c.id !in old(components)
      ensures components == old(components)[c.id := c] && nextComponentId == old(nextComponentId) + 1
      ensures users == old(users) && passports == old(passports) && jobs == old(jobs)
      ensures nextPassportId == old(nextPassportId) && nextJobId == old(nextJobId)
    {
      c := NewComponent(nextComponentId, data, authorId, now);
      components := components[c.id := c];
      nextComponentId := nextComponentId + 1;
    }

    method CreateImportJob(data: NewImportJobData, authorId: string, now: int) returns (j: ImportJob)
      requires Valid()
      modifies this
      ensures Valid()
      ensures j == NewImportJob(old(nextJobId), data, authorId, now)
      ensures j.id !in old(jobs)
      ensures jobs == old(jobs)[j.id := j] && nextJobId == old(nextJobId) + 1
      ensures users == old(users) && passports == old(passports) && components == old(components)
      ensures nextPassportId == old(nextPassportId) && nextComponentId == old(nextComponentId)
    {
      j := NewImportJob(nextJobId, data, authorId, now);
      jobs := jobs[j.id := j];
      nextJobId := nextJobId + 1;
    }

    /** Lookup by id alone: no ownership check. */
    function GetImportJob(id: int): (r: Option<ImportJob>)
      reads this
      ensures r.Some? <==> id in jobs
      ensures r.Some? ==> r.value == jobs[id]
    {
      if id in jobs then Some(jobs[id]) else None
    }

    /** Filtered on id alone; a missing job changes nothing and gives no row. */
    method UpdateImportJob(id: int, u: JobUpdate) returns (r: Option<ImportJob>)
      requires Valid()
      modifies this
      ensures Valid()
      ensures r.Some? <==> id in old(jobs)
      ensures r.Some? ==> r.value == UpdatedImportJob(old(jobs)[id], u)
      ensures jobs == if r.Some? then old(jobs)[id := r.value] else old(jobs)
      ensures users == old(users) && passports == old(passports) && components == old(components)
      ensures nextPassportId == old(nextPassportId) && nextComponentId == old(nextComponentId) && nextJobId == old(nextJobId)
    {
      if id in jobs {
        var j := UpdatedImportJob(jobs[id], u);
        jobs := jobs[id := j];
        r := Some(j);
      } else {
        r := None;
      }
    }

    function ScopedPassports(scope: Scope): set<int>
      reads this
    {
      set id | id in passports && InScope(passports[id].authorId, scope)
    }

    function ScopedWithStatus(scope: Scope, status: string): set<int>
      reads this
    {
      set id | id in passports && InScope(passports[id].authorId, scope) && StatusOf(passports[id]) == Text(status)
    }

    /** The complete and the draft rows of a scope cover it exactly when it holds no other status. */
    lemma StatusPartition(scope: Scope)
      ensures ScopedPassports(scope) == ScopedWithStatus(scope, CompleteStatus) + ScopedWithStatus(scope, DraftStatus) <==>
                forall id | id in ScopedPassports(scope) ::
                  StatusOf(passports[id]) == Text(CompleteStatus) || StatusOf(passports[id]) == Text(DraftStatus)
    {
      var all := ScopedPassports(scope);
      var done := ScopedWithStatus(scope, CompleteStatus);
      var draft := ScopedWithStatus(scope, DraftStatus);
      if forall id | id in all :: StatusOf(passports[id]) == Text(CompleteStatus) || StatusOf(passports[id]) == Text(DraftStatus) {
        forall id | id in all ensures id in done + draft {
        }
      }
    }

    /**
     * The dashboard counts over the scope. Complete and draft rows are
     * counted apart and together never exceed the total; they make up the
     * total exactly when no row of the scope has any other status.
     */
    function GetDashboardStats(scope: Scope): (r: DashboardStats)
      reads this
      ensures r.totalPassports == |ScopedPassports(scope)|
      ensures r.completed == |ScopedWithStatus(scope, CompleteStatus)|
      ensures r.inProgress == |ScopedWithStatus(scope, DraftStatus)|
      ensures r.completed + r.inProgress <= r.totalPassports
      ensures r.completed + r.inProgress == r.totalPassports <==>
                forall id | id in ScopedPassports(scope) ::
                  StatusOf(passports[id]) == Text(CompleteStatus) || StatusOf(passports[id]) == Text(DraftStatus)
      ensures r.totalComponents == |set id | id in components && InScope(components[id].authorId, scope)|
    {
      var all := ScopedPassports(scope);
      var done := ScopedWithStatus(scope, CompleteStatus);
      var draft := ScopedWithStatus(scope, DraftStatus);
      DisjointParts(all, done, draft);
      StatusPartition(scope);
      DashboardStats(|all|, |done|, |draft|, |set id | id in components && InScope(components[id].authorId, scope)|)
    }
  }

  /** Two disjoint parts of a finite set fill it exactly when their sizes add up to its size. */
  lemma DisjointParts(all: set<int>, a: set<int>, b: set<int>)
    requires a <= all && b <= all && a !! b
    ensures |a| + |b| <= |all|
    ensures |a| + |b| == |all| <==> all == a + b
  {
    var rest := all - (a + b);
    assert |a + b| == |a| + |b|;
    assert all == rest + (a + b) && rest !! (a + b);
    assert |all| == |rest| + |a + b|;
    assert all == a + b <==> rest == {};
  }
}
