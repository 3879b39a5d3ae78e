/**
 * Per-user unread counters of the chat list (src/hooks/use-user-unread-counts.ts):
 * a dictionary from user id to count, initialised from the list of users and
 * changed by four updaters of the shape `prev => ({ ...prev, [id]: v })`.
 */
module UnreadCounts {

  type UserId = string

  /** `UserUnreadCounts`: a JavaScript number per user id; any integer may be stored. */
  type Counts = map<UserId, int>

  /** `counts[id] || 0`: a missing key reads as 0. */
  function Lookup(counts: Counts, id: UserId): int
  {
    if id in counts then counts[id] else 0
  }

  /** `{ ...prev, [id]: n }`: writes one key and keeps every other entry. */
  function Put(counts: Counts, id: UserId, n: int): (r: Counts)
    ensures r.Keys == counts.Keys + {id}
    ensures Lookup(r, id) == n
    ensures forall k :: k != id && k in counts ==> r[k] == counts[k]
  {
    counts[id := n]
  }

  /** The entries added by the initialisation: 0 for each listed user with no entry yet. */
  function MissingZeros(counts: Counts, users: seq<UserId>): (m: Counts)
    ensures m.Keys == (set u | u in users) - counts.Keys
    ensures forall u :: u in m ==> m[u] == 0
  {
    map u | u in users && u !in counts :: 0
  }

  /** `{ ...prev, ...initialCounts }` with the entries of MissingZeros. */
  function WithMissingZeros(counts: Counts, users: seq<UserId>): (r: Counts)
    ensures r.Keys == counts.Keys + (set u | u in users)
    ensures forall k :: k in counts ==> r[k] == counts[k]
    ensures forall k :: k in r && k !in counts ==> r[k] == 0
  {
    counts + MissingZeros(counts, users)
  }

  /** `updateUnreadCount`: the given count, stored as is. */
  function Update(counts: Counts, id: UserId, n: int): (r: Counts)
    ensures id in r && r[id] == n
    ensures r.Keys == counts.Keys + {id}
    ensures forall k :: k != id && k in counts ==> r[k] == counts[k]
    ensures forall k :: k != id ==> Lookup(r, k) == Lookup(counts, k)
  {
    Put(counts, id, n)
  }

  /** `incrementUnreadCount`: one more than before, a missing key counting as 0. */
  function Increment(counts: Counts, id: UserId): (r: Counts)
    ensures id in r && r[id] == Lookup(counts, id) + 1
    ensures r.Keys == counts.Keys + {id}
    ensures forall k :: k != id && k in counts ==> r[k] == counts[k]
    ensures forall k :: k != id ==> Lookup(r, k) == Lookup(counts, k)
  {
    Put(counts, id, Lookup(counts, id) + 1)
  }

  /** `decrementUnreadCount`: one less than before, clamped at zero. */
  function Decrement(counts: Counts, id: UserId): (r: Counts)
    ensures id in r && r[id] >= 0
    ensures Lookup(counts, id) >= 1 ==> r[id] == Lookup(counts, id) - 1
    ensures Lookup(counts, id) <= 0 ==> r[id] == 0
    ensures r.Keys == counts.Keys + {id}
    ensures forall k :: k != id && k in counts ==> r[k] == counts[k]
    ensures forall k :: k != id ==> Lookup(r, k) == Lookup(counts, k)
  {
    Put(counts, id, if Lookup(counts, id) - 1 > 0 then Lookup(counts, id) - 1 else 0)
  }

  /** `resetUnreadCount`: the key is present and reads 0. */
  function Reset(counts: Counts, id: UserId): (r: Counts)
    ensures id in r && r[id] == 0
    ensures r.Keys == counts.Keys + {id}
    ensures forall k :: k != id && k in counts ==> r[k] == counts[k]
    ensures forall k :: k != id ==> Lookup(r, k) == Lookup(counts, k)
  {
    Put(counts, id, 0)
  }

  /** An increment followed by a decrement gives back any non-negative count. */
  lemma IncrementThenDecrement(counts: Counts, id: UserId)
    requires Lookup(counts, id) >= 0
    ensures Lookup(Decrement(Increment(counts, id), id), id) == Lookup(counts, id)
    ensures id in counts ==> Decrement(Increment(counts, id), id) == counts
  {
  }

  /** The updaters as one operation type, to reason about any sequence of them. */
  datatype CountOp =
    | UpdateOp(id: UserId, n: int)
    | IncrementOp(id: UserId)
    | DecrementOp(id: UserId)
    | ResetOp(id: UserId)
    | InitOp(users: seq<UserId>)

  function Apply(counts: Counts, op: CountOp): Counts
  {
    match op
    case UpdateOp(id, n) => Update(counts, id, n)
    case IncrementOp(id) => Increment(counts, id)
    case DecrementOp(id) => Decrement(counts, id)
    case ResetOp(id) => Reset(counts, id)
    case InitOp(users) => WithMissingZeros(counts, users)
  }

  function ApplyAll(counts: Counts, ops: seq<CountOp>): Counts
    decreases |ops|
  {
    if ops == [] then counts else ApplyAll(Apply(counts, ops[0]), ops[1..])
  }

  ghost predicate NonNegative(counts: Counts)
  {
    forall k :: k in counts ==> counts[k] >= 0
  }

  /** Only `updateUnreadCount` can store a negative count; without it none appears. */
  lemma {:induction false} NonNegativePreserved(counts: Counts, ops: seq<CountOp>)
    requires NonNegative(counts)
    requires forall i :: 0 <= i < |ops| ==> (ops[i].UpdateOp? ==> ops[i].n >= 0)
    ensures NonNegative(ApplyAll(counts, ops))
    decreases |ops|
  {
    if ops != [] {
      var next := Apply(counts, ops[0]);
      assert NonNegative(next);
      NonNegativePreserved(next, ops[1..]);
    }
  }

  /** The set of users with an entry only grows. */
  lemma {:induction false} KeysOnlyGrow(counts: Counts, ops: seq<CountOp>)
    ensures counts.Keys <= ApplyAll(counts, ops).Keys
    decreases |ops|
  {
    if ops != [] {
      KeysOnlyGrow(Apply(counts, ops[0]), ops[1..]);
    }
  }

  /** Initialising twice from the same users is the same as once. */
  lemma InitIdempotent(counts: Counts, users: seq<UserId>)
    ensures WithMissingZeros(WithMissingZeros(counts, users), users) == WithMissingZeros(counts, users)
  {
  }

  /**
   * The init effect's loop: `initialCounts[user.userId] = 0` for every user
   * that has no entry in `counts`.
   */
  method CollectMissing(users: seq<UserId>, counts: Counts) returns (initialCounts: Counts)
    ensures initialCounts.Keys == (set u | u in users) - counts.Keys
    ensures forall u :: u in initialCounts ==> initialCounts[u] == 0
  {
    initialCounts := map[];
    var i := 0;
    while i < |users|
      invariant 0 <= i <= |users|
      invariant initialCounts.Keys == (set u | u in users[..i]) - counts.Keys
      invariant forall u :: u in initialCounts ==> initialCounts[u] == 0
    {
      if users[i] !in counts {
        initialCounts := initialCounts[users[i] := 0];
      }
      assert users[..i + 1] == users[..i] + [users[i]];
      i := i + 1;
    }
    assert users[..i] == users;
  }

  /** What the init loop collects is MissingZeros; it is non-empty iff some listed user has no entry. */
  lemma MergeMissing(counts: Counts, users: seq<UserId>, initialCounts: Counts)
    requires initialCounts.Keys == (set u | u in users) - counts.Keys
    requires forall u :: u in initialCounts ==> initialCounts[u] == 0
    ensures counts + initialCounts == WithMissingZeros(counts, users)
    ensures |initialCounts| > 0 <==> exists u :: u in users && u !in counts
    ensures |initialCounts| == 0 ==> counts + initialCounts == counts
  {
    var missing := MissingZeros(counts, users);
    assert initialCounts == missing;
    if |initialCounts| > 0 {
      var u :| u in initialCounts;
      assert u in users && u !in counts;
    } else {
      assert initialCounts == map[];
      forall u | u in users ensures u in counts {
        assert u !in missing.Keys;
      }
    }
  }

  /** The state held by one `useUserUnreadCounts` hook. */
  class UnreadCountStore {
    var unreadCounts: Counts

    constructor ()
      ensures unreadCounts == map[]
    {
      unreadCounts := map[];
    }

    /**
     * The init effect: adds 0 for each listed user with no entry and leaves
     * every existing count alone; makes no state update when nothing is missing.
     */
    method InitFromUsers(users: seq<UserId>) returns (updated: bool)
      modifies this
      ensures updated <==> exists u :: u in users && u !in old(unreadCounts)
      ensures unreadCounts == WithMissingZeros(old(unreadCounts), users)
      ensures !updated ==> unreadCounts == old(unreadCounts)
    {
      var initialCounts := CollectMissing(users, unreadCounts);
      MergeMissing(unreadCounts, users, initialCounts);
      updated := |initialCounts| > 0;
      if updated {
        unreadCounts := unreadCounts + initialCounts;
      }
    }

    method UpdateUnreadCount(id: UserId, count: int)
      modifies this
      ensures unreadCounts == Update(old(unreadCounts), id, count)
    {
      unreadCounts := Update(unreadCounts, id, count);
    }

    method IncrementUnreadCount(id: UserId)
      modifies this
      ensures unreadCounts == Increment(old(unreadCounts), id)
    {
      unreadCounts := Increment(unreadCounts, id);
    }

    method DecrementUnreadCount(id: UserId)
      modifies this
      ensures unreadCounts == Decrement(old(unreadCounts), id)
    {
      unreadCounts := Decrement(unreadCounts, id);
    }

    method ResetUnreadCount(id: UserId)
      modifies this
      ensures unreadCounts == Reset(old(unreadCounts), id)
    {
      unreadCounts := Reset(unreadCounts, id);
    }

    /** `getUnreadCount`: the stored count, or 0 for a user with no entry. */
    method GetUnreadCount(id: UserId) returns (n: int)
      ensures id in unreadCounts ==> n == unreadCounts[id]
      ensures id !in unreadCounts ==> n == 0
    {
      n := Lookup(unreadCounts, id);
    }
  }
}
