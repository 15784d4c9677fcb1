/** The payment provider's own ledger (src/mockdata/mockdata-psp.service.ts), one row per idempotency key. */
module Charges {
  import opened Wrappers
  import opened StockLedger

  datatype ChargeStatus = SUCCEEDED | DECLINED

  datatype Charge = Charge(transactionId: nat, amount: nat, status: ChargeStatus)

  /** What the provider answers. The instant of the charge is left out: a first answer carries none. */
  datatype PaymentResult = PaymentResult(success: bool, idempotencyKey: OrderId, transactionId: nat, amount: nat)

  function ToResult(key: OrderId, charge: Charge): PaymentResult {
    PaymentResult(charge.status == SUCCEEDED, key, charge.transactionId, charge.amount)
  }

  /** The answer is about this charge, field by field. */
  predicate Reports(result: PaymentResult, key: OrderId, charge: Charge) {
    && (result.success <==> charge.status == SUCCEEDED)
    && result.idempotencyKey == key && result.transactionId == charge.transactionId && result.amount == charge.amount
  }

  /** The saga only ever uses order ids as keys, so the ledger is a map from orders. */
  class ChargeCollection {
    var rows: map<OrderId, Charge>

    constructor ()
      ensures rows == map[]
    {
      rows := map[];
    }

    method FindOne(key: OrderId) returns (charge: Option<Charge>)
      ensures charge == if key in rows then Some(rows[key]) else None
    {
      charge := if key in rows then Some(rows[key]) else None;
    }

    /** An insert under the unique index on the key: false is the duplicate-key error. */
    method Create(key: OrderId, charge: Charge) returns (inserted: bool)
      modifies this
      ensures inserted == (key !in old(rows))
      ensures rows == if key in old(rows) then old(rows) else old(rows)[key := charge]
    {
      inserted := key !in rows;
      if inserted {
        rows := rows[key := charge];
      }
    }
  }
}
