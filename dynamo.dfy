/**
 * The key-value store both registries sit on: every table of one DynamoDB
 * account as a single map from (table name, primary id) to row, with the
 * put, delete and transactional write the registries issue. What the outside
 * world decides for one call (whether an encoder succeeds, whether the store
 * answers, whether it commits a transaction) is passed in as an Env.
 */
module Dynamo {
  import opened Results
  import opened Records

  /** The address of one row: its table and its primary id. */
  datatype ItemKey = ItemKey(table: string, key: string)

  type Tables = map<ItemKey, Item>

  /** The decisions of the encoders and of the remote store for one call. */
  datatype Env = Env(
    encodes: TokenInfo -> bool,    // json.Marshal of the token info succeeds
    marshals: Item -> bool,        // dynamodbattribute.MarshalMap of a row succeeds
    marshalsKey: string -> bool,   // dynamodbattribute.MarshalMap of a key structure succeeds
    answers: ItemKey -> bool,      // the store answers a get, put or delete of this row
    commits: bool)                 // the store accepts a well-formed transactional write

  /** Every row is stored under its own primary id. */
  ghost predicate WellKeyed(t: Tables)
  {
    forall s :: s in t ==> t[s].Key() == s.key
  }

  /** One put of a transactional write. */
  datatype Put = Put(table: string, item: Item)
  {
    function Target(): ItemKey
    {
      ItemKey(table, item.Key())
    }
  }

  /** A transaction may not touch one row twice. */
  predicate DistinctTargets(ops: seq<Put>)
  {
    forall i, j :: 0 <= i < j < |ops| ==> ops[i].Target() != ops[j].Target()
  }

  /** The tables after the puts of a committed transaction. */
  function ApplyPuts(t: Tables, ops: seq<Put>): Tables
    decreases |ops|
  {
    if ops == [] then t else ApplyPuts(t[ops[0].Target() := ops[0].item], ops[1..])
  }

  lemma {:induction false} ApplyPutsKeepsWellKeyed(t: Tables, ops: seq<Put>)
    requires WellKeyed(t)
    ensures WellKeyed(ApplyPuts(t, ops))
    decreases |ops|
  {
    if ops != [] {
      var t' := t[ops[0].Target() := ops[0].item];
      assert WellKeyed(t');
      ApplyPutsKeepsWellKeyed(t', ops[1..]);
    }
  }

  /** A row no put targets keeps its presence and its value. */
  lemma {:induction false} ApplyPutsMiss(t: Tables, ops: seq<Put>, s: ItemKey)
    requires forall k :: 0 <= k < |ops| ==> ops[k].Target() != s
    ensures s in ApplyPuts(t, ops) <==> s in t
    ensures s in t ==> ApplyPuts(t, ops)[s] == t[s]
    decreases |ops|
  {
    if ops != [] {
      assert forall k :: 0 <= k < |ops[1..]| ==> ops[1..][k] == ops[k + 1];
      ApplyPutsMiss(t[ops[0].Target() := ops[0].item], ops[1..], s);
    }
  }

  /** With distinct targets, every put's row is present afterwards. */
  lemma {:induction false} ApplyPutsHit(t: Tables, ops: seq<Put>, k: nat)
    requires DistinctTargets(ops)
    requires k < |ops|
    ensures ops[k].Target() in ApplyPuts(t, ops)
    ensures ApplyPuts(t, ops)[ops[k].Target()] == ops[k].item
    decreases |ops|
  {
    var t' := t[ops[0].Target() := ops[0].item];
    var rest := ops[1..];
    assert forall i :: 0 <= i < |rest| ==> rest[i] == ops[i + 1];
    if k == 0 {
      assert forall i :: 0 <= i < |rest| ==> rest[i].Target() != ops[0].Target() by {
        forall i | 0 <= i < |rest| ensures rest[i].Target() != ops[0].Target() {
          assert ops[0].Target() != ops[i + 1].Target();
        }
      }
      ApplyPutsMiss(t', rest, ops[0].Target());
    } else {
      assert DistinctTargets(rest) by {
        forall i, j | 0 <= i < j < |rest| ensures rest[i].Target() != rest[j].Target() {
          assert ops[i + 1].Target() != ops[j + 1].Target();
        }
      }
      ApplyPutsHit(t', rest, k - 1);
    }
  }

  /** The remote store. */
  class Db {
    var tables: Tables

    ghost predicate Valid()
      reads this
    {
      WellKeyed(tables)
    }

    constructor ()
      ensures Valid() && tables == map[]
    {
      tables := map[];
    }

    /** PutItem: an upsert of one row. */
    method PutItem(table: string, item: Item, env: Env) returns (o: Outcome)
      requires Valid()
      modifies this
      ensures Valid()
      ensures o.Pass? <==> env.answers(ItemKey(table, item.Key()))
      ensures o.Fail? ==> o.error == Unavailable
      ensures tables == if o.Pass? then old(tables)[ItemKey(table, item.Key()) := item] else old(tables)
    {
      if !env.answers(ItemKey(table, item.Key())) {
        return Fail(Unavailable);
      }
      tables := tables[ItemKey(table, item.Key()) := item];
      o := Pass;
    }

    /** DeleteItem: removes one row; deleting an absent row succeeds and changes nothing. */
    method DeleteItem(table: string, key: string, env: Env) returns (o: Outcome)
      requires Valid()
      modifies this
      ensures Valid()
      ensures o.Pass? <==> env.answers(ItemKey(table, key))
      ensures o.Fail? ==> o.error == Unavailable
      ensures tables == if o.Pass? then old(tables) - {ItemKey(table, key)} else old(tables)
    {
      if !env.answers(ItemKey(table, key)) {
        return Fail(Unavailable);
      }
      tables := tables - {ItemKey(table, key)};
      o := Pass;
    }

    /**
     * TransactWriteItems: all puts take effect or none does. The store
     * rejects a transaction that targets one row twice, and any other it
     * chooses not to commit.
     */
    method TransactWriteItems(ops: seq<Put>, env: Env) returns (o: Outcome)
      requires Valid()
      modifies this
      ensures Valid()
      ensures o.Pass? <==> env.commits && DistinctTargets(ops)
      ensures o.Fail? ==> o.error == Transaction
      ensures tables == if o.Pass? then ApplyPuts(old(tables), ops) else old(tables)
    {
      if !env.commits || !DistinctTargets(ops) {
        return Fail(Transaction);
      }
      ApplyPutsKeepsWellKeyed(tables, ops);
      tables := ApplyPuts(tables, ops);
      o := Pass;
    }
  }
}
