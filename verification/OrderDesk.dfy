/** `place` from end to end: the gate, the order, and the notional it adds (server/app/services/order_service.py). */
module OrderDesk {
  import DailyCap
  import DailyLoss
  import opened EntryLockout
  import opened OrdersDb
  import opened OrderService
  import opened OrderSolo
  import OrderRuns
  import opened RiskGate
  import opened Wrappers

  /** A limit order without a price never reaches the broker: its adapter raises first. */
  predicate Sendable(o: Intent) {
    o.orderType.MarketOrder? || o.price.Some?
  }

  /** What `place` hears of an order the broker would answer with `a`. */
  function Heard(o: Intent, a: OrderRuns.Answer): OrderRuns.Answer {
    if Sendable(o) then a else OrderRuns.Failed
  }

  class OrderDesk {
    const bucket: Bucket
    const gate: Gate
    const service: OrderService
    var risk: Option<DailyLoss.RiskState>
    /** The orders handed to the broker. */
    var handed: seq<Intent>

    constructor (bucket: Bucket, gate: Gate, service: OrderService)
      ensures this.bucket == bucket && this.gate == gate && this.service == service && risk == None && handed == []
    {
      this.bucket, this.gate, this.service := bucket, gate, service;
      risk, handed := None, [];
    }

    /** What the gate sees now. */
    function Now(env: Env): Env
      reads this, service.repo
    {
      env.(risk := risk, quarantined := HasQuarantined(service.repo.rows, bucket))
    }

    /** Every call is decided and audited exactly once; a rejected order touches nothing else; an admitted one is
        placed, handed to the broker once if it can be sent, and adds its notional when accepted. */
    method Place(env: Env, o: Intent, ctx: Context, account: Option<nat>, a: OrderRuns.Answer) returns (d: Decision)
      requires Stored(service.repo.rows)
      modifies this, gate, service, service.repo
      ensures Stored(service.repo.rows)
      ensures d == old(PreCheck(Now(env), o, ctx)) && gate.audit == old(gate.audit) + [d]
      ensures !d.Ok() ==>
        && service.repo.rows == old(service.repo.rows) && service.sent == old(service.sent) && risk == old(risk)
        && handed == old(handed)
      ensures d.Ok() ==>
        (service.repo.rows, service.sent)
          == Solo(OrderRuns.Place(RequestOf(o, account)), Heard(o, a), old(service.repo.rows), old(service.sent))
      ensures |service.repo.rows| > |old(service.repo.rows)| ==>
        var row := service.repo.rows[|old(service.repo.rows)|];
        && row.key == o.clientOrderId && row.account == account && row.market == MarketName(o.market)
        && row.symbol == o.symbol && row.qty == o.qty as real && row.price == o.price && row.relation.New?
      ensures d.Ok() ==>
        handed == old(handed) + if |service.sent| > |old(service.sent)| && Sendable(o) then [o] else []
      ensures d.Ok() ==>
        var n := |old(service.repo.rows)|;
        var accepted := |service.repo.rows| > n && service.repo.rows[n].status.Accepted?;
        risk == if accepted then DailyLoss.AddUsed(old(risk), DailyCap.Bump(env, o, ctx)) else old(risk)
    {
      hide PreCheck, HasQuarantined, Solo, Stored;
      var quarantined := QueryQuarantined(service.repo.rows, bucket);
      d := gate.Check(env.(risk := risk, quarantined := quarantined), o, ctx);
      if !d.Ok() {
        return;
      }
      var before := |service.sent|;
      var accepted := service.Place(RequestOf(o, account), Heard(o, a));
      PlaceAlone(RequestOf(o, account), Heard(o, a), old(service.repo.rows), old(service.sent));
      if |service.sent| > before && Sendable(o) {
        handed := handed + [o];
      }
      if accepted {
        BumpNotional(env, o, ctx);
      }
    }

    method BumpNotional(env: Env, o: Intent, ctx: Context)
      modifies this`risk
      ensures risk == DailyLoss.AddUsed(old(risk), DailyCap.Bump(env, o, ctx))
    {
      hide Notional, Times;
      if BucketOf(o.market) != Some(Live) {
        return;
      }
      var n := Notional(o.qty, o.price, ctx.multiplier);
      if n.None? || !env.fx.Supports(CurrencyOf(o)) {
        return;
      }
      risk := DailyLoss.AddUsed(risk, Times(n.value, env.fx.Ceil(CurrencyOf(o))));
    }
  }
}
