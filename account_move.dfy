/**
 * The add-on's extension of `account.move`: the `x_relatic_order_id` order
 * key, its `UNIQUE` SQL constraint and `search_by_relatic_order_id`.
 */
module AccountMove {
  import opened Wrappers
  import opened Records

  /** The rows `search_by_relatic_order_id(key)` selects: customer invoices with exactly that key. */
  predicate IsInvoiceFor(m: Move, key: string) {
    m.moveType == OutInvoice && m.orderKey == Some(key)
  }

  /**
   * `search_by_relatic_order_id`: at most one move, a customer invoice
   * whose key is exactly `key`; nothing iff there is no such invoice.
   */
  function SearchByOrderKey(moves: map<Id, Move>, key: string): (r: Option<Id>)
    ensures r.Some? ==> r.value in moves && moves[r.value].moveType == OutInvoice && moves[r.value].orderKey == Some(key)
    ensures r.None? <==> forall k :: k in moves ==> !IsInvoiceFor(moves[k], key)
    ensures r.Some? ==> forall k :: k in moves && IsInvoiceFor(moves[k], key) ==> r.value <= k
  {
    First(moves, (m: Move) => IsInvoiceFor(m, key))
  }

  /** `UNIQUE(x_relatic_order_id)`: set keys are unique over moves of every type (NULLs never clash). */
  predicate OrderKeysUnique(moves: map<Id, Move>) {
    forall a, b :: a in moves && b in moves && moves[a].orderKey.Some? && moves[a].orderKey == moves[b].orderKey ==> a == b
  }

  /** Some move of any type already holds `key`. */
  predicate KeyTaken(moves: map<Id, Move>, key: string) {
    exists k :: k in moves && moves[k].orderKey == Some(key)
  }

  /**
   * Inserting a move keeps the constraint exactly when the move has no key
   * or its key is not taken: the database accepts and rejects on this test.
   */
  lemma {:induction false} InsertKeepsUnique(moves: map<Id, Move>, id: Id, m: Move)
    requires OrderKeysUnique(moves) && id !in moves
    ensures OrderKeysUnique(moves[id := m]) <==> (m.orderKey.None? || !KeyTaken(moves, m.orderKey.value))
  {
    var after := moves[id := m];
    if m.orderKey.Some? && KeyTaken(moves, m.orderKey.value) {
      var k :| k in moves && moves[k].orderKey == Some(m.orderKey.value);
      assert k != id && after[k].orderKey == after[id].orderKey;
    }
  }

  /** Keyless moves, such as payment entries, never conflict with anything. */
  lemma KeylessNeverConflicts(moves: map<Id, Move>, id: Id, m: Move)
    requires OrderKeysUnique(moves) && id !in moves && m.orderKey.None?
    ensures OrderKeysUnique(moves[id := m])
  {
    InsertKeepsUnique(moves, id, m);
  }

  /** `copy()` of a move: `x_relatic_order_id` is declared `copy=False`, and the copy is a draft. */
  function Copy(m: Move): (r: Move)
    ensures r.orderKey.None? && r.state == Draft
    ensures r.moveType == m.moveType && r.partner == m.partner && r.lines == m.lines
  {
    m.(orderKey := None, state := Draft, name := "/")
  }

  /** A copy can always be inserted: duplicating a move never trips the constraint. */
  lemma CopyNeverConflicts(moves: map<Id, Move>, id: Id, m: Move)
    requires OrderKeysUnique(moves) && id !in moves
    ensures OrderKeysUnique(moves[id := Copy(m)])
  {
    KeylessNeverConflicts(moves, id, Copy(m));
  }

  /** Under the constraint, the search finds the one invoice holding the key. */
  lemma {:induction false} SearchFindsHolder(moves: map<Id, Move>, key: string, id: Id)
    requires OrderKeysUnique(moves) && id in moves && IsInvoiceFor(moves[id], key)
    ensures SearchByOrderKey(moves, key) == Some(id)
  {
    var r := SearchByOrderKey(moves, key);
    assert r.Some?;
    assert moves[r.value].orderKey == moves[id].orderKey;
  }

  /** Adding a move that is not a customer invoice never changes what the search returns. */
  lemma {:induction false} NonInvoiceInvisible(moves: map<Id, Move>, id: Id, m: Move, key: string)
    requires id !in moves && m.moveType != OutInvoice
    ensures SearchByOrderKey(moves[id := m], key) == SearchByOrderKey(moves, key)
  {
    var before := SearchByOrderKey(moves, key);
    var after := SearchByOrderKey(moves[id := m], key);
    if after.Some? {
      assert after.value != id && after.value in moves && IsInvoiceFor(moves[after.value], key);
      assert before.Some? && before.value <= after.value;
      assert before.value in moves[id := m] && IsInvoiceFor(moves[id := m][before.value], key);
    } else {
      forall k | k in moves ensures !IsInvoiceFor(moves[k], key) {
        assert k != id && moves[id := m][k] == moves[k];
      }
    }
  }

  /**
   * A key held by a credit note is invisible to the search although it is
   * taken: `create_refund`'s lookup of its own key never succeeds, and the
   * constraint then refuses a second credit note with the same key.
   */
  lemma {:induction false} RefundKeyHidden(moves: map<Id, Move>, id: Id, key: string)
    requires OrderKeysUnique(moves) && id in moves
    requires moves[id].orderKey == Some(key) && moves[id].moveType == OutRefund
    ensures SearchByOrderKey(moves, key).None?
    ensures KeyTaken(moves, key)
  {
    forall k | k in moves ensures !IsInvoiceFor(moves[k], key) {
      if moves[k].orderKey == Some(key) {
        assert k == id;
      }
    }
  }
}
