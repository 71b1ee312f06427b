/**
 * The database the services work on.  A `Store` holds the business tables
 * and the id sequence; each ORM `create`/`write` the add-on performs is a
 * method that changes exactly one row.  Posting and the residual of a move
 * are Odoo accounting internals, given to the store as `LedgerRules`.
 */
module Store {
  import opened Wrappers
  import opened Records
  import opened AccountMove

  /**
   * What `action_post` computes that the add-on does not: the amount still
   * due on an invoice (its tax-inclusive total, which depends on the lines'
   * quantities, prices and taxes only) and the number a posted move is
   * given.
   */
  datatype LedgerRules = LedgerRules(total: seq<LinePrice> -> real, number: (MoveType, Id) -> string)

  /** The tables satisfy the id sequence and the order-key constraint. */
  predicate TablesValid(t: Tables, nextId: nat) {
    IdsBelow(t, nextId) && OrderKeysUnique(t.moves)
  }

  class Store {
    var db: Tables
    var nextId: nat
    const rules: LedgerRules

    predicate Valid()
      reads this
    {
      TablesValid(db, nextId)
    }

    constructor (tables: Tables, next: nat, ledger: LedgerRules)
      requires TablesValid(tables, next)
      ensures Valid() && db == tables && nextId == next && rules == ledger
    {
      db := tables;
      nextId := next;
      rules := ledger;
    }

    /** `nextval` of the id sequence: never an id that is in use. */
    method NewId() returns (id: Id)
      requires Valid()
      modifies this
      ensures Valid() && db == old(db) && nextId == old(nextId) + 1 && id == old(nextId)
      ensures id !in db.partners && id !in db.partnerTags && id !in db.productCategories
      ensures id !in db.products && id !in db.moves
    {
      id := nextId;
      nextId := nextId + 1;
    }

    /** Rolling back to a savepoint: the tables return, the sequence does not. */
    method Restore(snapshot: Tables, snapshotNext: nat)
      requires Valid() && TablesValid(snapshot, snapshotNext) && snapshotNext <= nextId
      modifies this
      ensures Valid() && db == snapshot && nextId == old(nextId)
    {
      IdsBelowMonotone(snapshot, snapshotNext, nextId);
      db := snapshot;
    }

    /** `res.partner.create`. */
    method CreatePartner(p: Partner) returns (id: Id)
      requires Valid()
      modifies this
      ensures Valid() && nextId == old(nextId) + 1 && id == old(nextId)
      ensures id !in old(db.partners) && db == old(db).(partners := old(db.partners)[id := p])
    {
      id := NewId();
      db := db.(partners := db.partners[id := p]);
    }

    /** `partner.write(...)`. */
    method WritePartner(id: Id, p: Partner)
      requires Valid() && id in db.partners
      modifies this
      ensures Valid() && nextId == old(nextId)
      ensures db == old(db).(partners := old(db.partners)[id := p])
    {
      db := db.(partners := db.partners[id := p]);
    }

    /** `res.partner.category.create({'name': name})`. */
    method CreatePartnerTag(name: string) returns (id: Id)
      requires Valid()
      modifies this
      ensures Valid() && nextId == old(nextId) + 1 && id == old(nextId)
      ensures id !in old(db.partnerTags) && db == old(db).(partnerTags := old(db.partnerTags)[id := name])
    {
      id := NewId();
      db := db.(partnerTags := db.partnerTags[id := name]);
    }

    /** `product.category.create`. */
    method CreateProductCategory(c: ProductCategory) returns (id: Id)
      requires Valid()
      modifies this
      ensures Valid() && nextId == old(nextId) + 1 && id == old(nextId)
      ensures id !in old(db.productCategories)
      ensures db == old(db).(productCategories := old(db.productCategories)[id := c])
    {
      id := NewId();
      db := db.(productCategories := db.productCategories[id := c]);
    }

    /** `product.product.create`. */
    method CreateProduct(p: Product) returns (id: Id)
      requires Valid()
      modifies this
      ensures Valid() && nextId == old(nextId) + 1 && id == old(nextId)
      ensures id !in old(db.products) && db == old(db).(products := old(db.products)[id := p])
    {
      id := NewId();
      db := db.(products := db.products[id := p]);
    }

    /**
     * `account.move.create`: the INSERT draws an id from the sequence and is
     * refused by `UNIQUE(x_relatic_order_id)` when another move of any type
     * holds the same key.
     */
    method CreateMove(m: Move) returns (r: Result<Id, Fault>)
      requires Valid()
      modifies this
      ensures Valid() && nextId == old(nextId) + 1
      ensures r.Err? <==> m.orderKey.Some? && KeyTaken(old(db.moves), m.orderKey.value)
      ensures r.Err? ==> r.error == OtherError(UniqueViolation(m.orderKey.value)) && db == old(db)
      ensures r.Ok? ==> r.value == old(nextId) && r.value !in old(db.moves) && db == old(db).(moves := old(db.moves)[r.value := m])
    {
      var id := NewId();
      if m.orderKey.Some? && KeyTaken(db.moves, m.orderKey.value) {
        return Err(OtherError(UniqueViolation(m.orderKey.value)));
      }
      InsertKeepsUnique(db.moves, id, m);
      db := db.(moves := db.moves[id := m]);
      r := Ok(id);
    }

    /** `action_post`: the move is posted and numbered. */
    method Post(id: Id)
      requires Valid() && id in db.moves
      modifies this
      ensures Valid() && nextId == old(nextId)
      ensures db == old(db).(moves := old(db.moves)[id := old(db.moves)[id].(
        state := Posted, name := rules.number(old(db.moves)[id].moveType, id))])
    {
      var m := db.moves[id];
      var posted := m.(state := Posted, name := rules.number(m.moveType, id));
      db := db.(moves := db.moves[id := posted]);
    }

    /** A write to moves that keeps every order key where it was. */
    method WriteMoves(moves: map<Id, Move>)
      requires Valid() && moves.Keys == db.moves.Keys
      requires forall k :: k in moves ==> moves[k].orderKey == db.moves[k].orderKey
      modifies this
      ensures Valid() && nextId == old(nextId) && db == old(db).(moves := moves)
    {
      db := db.(moves := moves);
    }
  }
}
