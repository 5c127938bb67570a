/** The price alerts of src/components/PriceAlerts.tsx: a list of alerts that a check pass
    deactivates when the current price crosses their target, plus the form handlers that add
    and remove alerts. Clock values (`Date.now()`, the ISO creation date) are parameters. */
module PriceAlerts {
  import opened Wrappers
  import Strings
  import Seqs

  datatype Condition = Above | Below

  datatype PriceAlert = PriceAlert(
    id: string, targetPrice: real, condition: Condition, currency: string, active: bool, createdAt: string)

  /** An alert fires when it is active, is in the panel's currency and its condition holds. */
  predicate Fires(a: PriceAlert, price: real, currency: string) {
    && a.active
    && a.currency == currency
    && ((a.condition == Above && price >= a.targetPrice) || (a.condition == Below && price <= a.targetPrice))
  }

  function FiresAt(price: real, currency: string): PriceAlert -> bool {
    (a: PriceAlert) => Fires(a, price, currency)
  }

  /** The ids of the alerts of `s` that fire. */
  function FiredIds(s: seq<PriceAlert>, price: real, currency: string): set<string> {
    set i | 0 <= i < |s| && Fires(s[i], price, currency) :: s[i].id
  }

  /** The state update queued for one fired alert: every alert with that id becomes inactive. */
  function Deactivate(s: seq<PriceAlert>, id: string): (r: seq<PriceAlert>)
    ensures |r| == |s|
  {
    seq(|s|, i requires 0 <= i < |s| => if s[i].id == id then s[i].(active := false) else s[i])
  }

  function DeactivateAll(s: seq<PriceAlert>, ids: set<string>): (r: seq<PriceAlert>)
    ensures |r| == |s|
  {
    seq(|s|, i requires 0 <= i < |s| => if s[i].id in ids then s[i].(active := false) else s[i])
  }

  /** The alert list after the check effect has run once: nothing happens for a falsy
      (zero) price or an empty list; otherwise every alert sharing an id with a firing one
      is deactivated. */
  function AfterCheck(s: seq<PriceAlert>, price: real, currency: string): seq<PriceAlert> {
    if price == 0.0 || |s| == 0 then s else DeactivateAll(s, FiredIds(s, price, currency))
  }

  /** The alerts the check effect notifies about, in list order. */
  function FiredAlerts(s: seq<PriceAlert>, price: real, currency: string): seq<PriceAlert> {
    if price == 0.0 || |s| == 0 then [] else Seqs.Filter(s, FiresAt(price, currency))
  }

  lemma DeactivateAllNothing(s: seq<PriceAlert>)
    ensures DeactivateAll(s, {}) == s
  {
  }

  lemma DeactivateAllAdd(s: seq<PriceAlert>, ids: set<string>, id: string)
    ensures Deactivate(DeactivateAll(s, ids), id) == DeactivateAll(s, ids + {id})
  {
  }

  lemma FiredIdsSnoc(s: seq<PriceAlert>, i: nat, price: real, currency: string)
    requires i < |s|
    ensures FiredIds(s[..i + 1], price, currency) ==
      FiredIds(s[..i], price, currency) + (if Fires(s[i], price, currency) then {s[i].id} else {})
  {
    var a := FiredIds(s[..i + 1], price, currency);
    var b := FiredIds(s[..i], price, currency) + (if Fires(s[i], price, currency) then {s[i].id} else {});
    forall x | x in a ensures x in b {
      var j :| 0 <= j < i + 1 && Fires(s[..i + 1][j], price, currency) && s[..i + 1][j].id == x;
      if j < i {
        assert s[..i][j] == s[j];
      }
    }
    forall x | x in b ensures x in a {
      if x in FiredIds(s[..i], price, currency) {
        var j :| 0 <= j < i && Fires(s[..i][j], price, currency) && s[..i][j].id == x;
        assert s[..i + 1][j] == s[j];
      } else {
        assert s[..i + 1][i] == s[i];
      }
    }
  }

  /** One run of the check effect: the `forEach` over the rendered list, deciding on each
      alert of that snapshot and queueing its deactivation on the latest list. */
  method CheckPass(alerts: seq<PriceAlert>, currentPrice: real, currency: string)
    returns (next: seq<PriceAlert>, fired: seq<PriceAlert>)
    ensures next == AfterCheck(alerts, currentPrice, currency)
    ensures fired == FiredAlerts(alerts, currentPrice, currency)
  {
    next, fired := alerts, [];
    if currentPrice != 0.0 && |alerts| > 0 {
      DeactivateAllNothing(alerts);
      var i := 0;
      while i < |alerts|
        invariant 0 <= i <= |alerts|
        invariant next == DeactivateAll(alerts, FiredIds(alerts[..i], currentPrice, currency))
        invariant fired == Seqs.Filter(alerts[..i], FiresAt(currentPrice, currency))
      {
        var alert := alerts[i];
        FiredIdsSnoc(alerts, i, currentPrice, currency);
        Seqs.FilterSnoc(alerts[..i], alert, FiresAt(currentPrice, currency));
        assert alerts[..i + 1] == alerts[..i] + [alert];
        if Fires(alert, currentPrice, currency) {
          DeactivateAllAdd(alerts, FiredIds(alerts[..i], currentPrice, currency), alert.id);
          fired := fired + [alert];
          next := Deactivate(next, alert.id);
        }
        i := i + 1;
      }
      assert alerts[..|alerts|] == alerts;
    }
  }

  function HasOtherId(id: string): PriceAlert -> bool {
    (a: PriceAlert) => a.id != id
  }

  function HasId(id: string): PriceAlert -> bool {
    (a: PriceAlert) => a.id == id
  }

  function ActiveIn(currency: string): PriceAlert -> bool {
    (a: PriceAlert) => a.active && a.currency == currency
  }

  function TriggeredIn(currency: string): PriceAlert -> bool {
    (a: PriceAlert) => !a.active && a.currency == currency
  }

  function InCurrency(currency: string): PriceAlert -> bool {
    (a: PriceAlert) => a.currency == currency
  }

  function Anything(): PriceAlert -> bool {
    (a: PriceAlert) => true
  }

  /** `alerts.filter(a => a.id !== id)`. */
  function Without(s: seq<PriceAlert>, id: string): seq<PriceAlert> {
    Seqs.Filter(s, HasOtherId(id))
  }

  function ActiveAlerts(s: seq<PriceAlert>, currency: string): seq<PriceAlert> {
    Seqs.Filter(s, ActiveIn(currency))
  }

  function TriggeredAlerts(s: seq<PriceAlert>, currency: string): seq<PriceAlert> {
    Seqs.Filter(s, TriggeredIn(currency))
  }

  /** The alert `addAlert` appends. */
  function NewAlert(target: real, condition: Condition, currency: string, now: nat, createdAt: string): PriceAlert {
    PriceAlert(Strings.NatToString(now), target, condition, currency, true, createdAt)
  }

  /** The component's state: the alert list and the form. */
  class AlertPanel {
    var alerts: seq<PriceAlert>
    var targetPrice: string
    var condition: Condition
    var showForm: bool

    constructor ()
      ensures alerts == [] && targetPrice == "" && condition == Above && !showForm
    {
      alerts, targetPrice, condition, showForm := [], "", Above, false;
    }

    /** The target-price input's `onChange`. */
    method SetTargetPrice(text: string)
      modifies this
      ensures targetPrice == text
      ensures alerts == old(alerts) && condition == old(condition) && showForm == old(showForm)
    {
      targetPrice := text;
    }

    /** The condition selector's `onChange`. */
    method SetCondition(c: Condition)
      modifies this
      ensures condition == c
      ensures alerts == old(alerts) && targetPrice == old(targetPrice) && showForm == old(showForm)
    {
      condition := c;
    }

    /** The check effect: deactivates what fires and returns the alerts to notify about. */
    method CheckAlerts(currentPrice: real, currency: string) returns (fired: seq<PriceAlert>)
      modifies this
      ensures alerts == AfterCheck(old(alerts), currentPrice, currency)
      ensures fired == FiredAlerts(old(alerts), currentPrice, currency)
      ensures targetPrice == old(targetPrice) && condition == old(condition) && showForm == old(showForm)
    {
      var next;
      next, fired := CheckPass(alerts, currentPrice, currency);
      alerts := next;
    }

    /** `addAlert`; `toNumber` is JavaScript's `Number`, with `None` for NaN. An empty or
        non-numeric target changes nothing; otherwise one active alert with the form's
        condition and the panel's currency is appended and the form is reset and closed. */
    method AddAlert(toNumber: string -> Option<real>, currency: string, now: nat, createdAt: string)
      modifies this
      ensures old(targetPrice) == "" || toNumber(old(targetPrice)).None? ==> unchanged(this)
      ensures old(targetPrice) != "" && toNumber(old(targetPrice)).Some? ==>
        && alerts == old(alerts) + [NewAlert(toNumber(old(targetPrice)).value, old(condition), currency, now, createdAt)]
        && targetPrice == "" && !showForm && condition == old(condition)
    {
      var number := toNumber(targetPrice);
      if targetPrice == "" || number.None? {
        return;
      }
      alerts := alerts + [NewAlert(number.value, condition, currency, now, createdAt)];
      targetPrice := "";
      showForm := false;
    }

    /** `removeAlert(id)`. */
    method RemoveAlert(id: string)
      modifies this
      ensures alerts == Without(old(alerts), id)
      ensures targetPrice == old(targetPrice) && condition == old(condition) && showForm == old(showForm)
    {
      alerts := Without(alerts, id);
    }
  }

  /** What a pass does to each alert: an alert ends inactive exactly when it was inactive or
      shares its id with an alert that fired; no other field of any alert changes. */
  lemma CheckPassEffect(s: seq<PriceAlert>, price: real, currency: string, i: nat)
    requires price != 0.0 && i < |s|
    ensures |AfterCheck(s, price, currency)| == |s|
    ensures AfterCheck(s, price, currency)[i].active <==>
      s[i].active && !(exists j :: 0 <= j < |s| && Fires(s[j], price, currency) && s[j].id == s[i].id)
    ensures AfterCheck(s, price, currency)[i] == s[i].(active := AfterCheck(s, price, currency)[i].active)
  {
    if exists j :: 0 <= j < |s| && Fires(s[j], price, currency) && s[j].id == s[i].id {
      var j :| 0 <= j < |s| && Fires(s[j], price, currency) && s[j].id == s[i].id;
      assert s[i].id in FiredIds(s, price, currency);
    }
  }

  /** A zero (falsy) price fires nothing and changes nothing. */
  lemma ZeroPriceDoesNothing(s: seq<PriceAlert>, currency: string)
    ensures AfterCheck(s, 0.0, currency) == s && FiredAlerts(s, 0.0, currency) == []
  {
  }

  /** A deactivated alert never fires again, whatever the price and currency. */
  lemma InactiveNeverFires(a: PriceAlert, price: real, currency: string)
    requires !a.active
    ensures !Fires(a, price, currency)
  {
  }

  /** The effect re-runs after its own update: the second pass at the same price fires
      nothing and leaves the list as the first pass left it. */
  lemma SecondPassFiresNothing(s: seq<PriceAlert>, price: real, currency: string)
    ensures FiredAlerts(AfterCheck(s, price, currency), price, currency) == []
    ensures AfterCheck(AfterCheck(s, price, currency), price, currency) == AfterCheck(s, price, currency)
  {
    var s' := AfterCheck(s, price, currency);
    if price != 0.0 && |s| > 0 {
      var ids := FiredIds(s, price, currency);
      forall i | 0 <= i < |s'|
        ensures !Fires(s'[i], price, currency)
      {
        assert Fires(s[i], price, currency) ==> s[i].id in ids;
      }
      assert FiredIds(s', price, currency) == {};
      Seqs.FilterNone(s', FiresAt(price, currency));
      assert DeactivateAll(s', {}) == s';
    }
  }

  /** `addAlert` with a valid target puts the new alert last and keeps the others in place. */
  lemma AddedAlertIsLastAndActive(s: seq<PriceAlert>, target: real, condition: Condition, currency: string, now: nat, createdAt: string)
    ensures
      var s' := s + [NewAlert(target, condition, currency, now, createdAt)];
      && |s'| == |s| + 1 && s'[..|s|] == s
      && s'[|s|].active && s'[|s|].condition == condition && s'[|s|].currency == currency
      && s'[|s|].targetPrice == target && s'[|s|].id == Strings.NatToString(now)
      && ActiveAlerts(s', currency) == ActiveAlerts(s, currency) + [s'[|s|]]
  {
    Seqs.FilterSnoc(s, NewAlert(target, condition, currency, now, createdAt), ActiveIn(currency));
  }

  /** `removeAlert(id)` keeps the order of the remaining alerts: removing from a list with one
      more alert at its end removes from the prefix and keeps that alert iff its id differs. */
  lemma WithoutSnoc(s: seq<PriceAlert>, a: PriceAlert, id: string)
    ensures Without(s + [a], id) == Without(s, id) + (if a.id != id then [a] else [])
  {
    Seqs.FilterSnoc(s, a, HasOtherId(id));
  }

  /** `removeAlert(id)` drops every alert with that id and no other: the remaining alerts and
      the removed ones together make up the original list, counted with multiplicity. */
  lemma RemoveDropsExactlyId(s: seq<PriceAlert>, id: string)
    ensures forall a :: a in Without(s, id) ==> a in s && a.id != id
    ensures forall a :: a in s && a.id != id ==> a in Without(s, id)
    ensures multiset(Without(s, id)) + multiset(Seqs.Filter(s, HasId(id))) == multiset(s)
  {
    forall a | a in s && a.id != id ensures a in Without(s, id) {
      Seqs.FilterKeeps(s, HasOtherId(id), a);
    }
    Seqs.FilterPartition(s, Anything(), HasOtherId(id), HasId(id));
    Seqs.FilterAll(s, Anything());
  }

  /** For one currency, the active and the triggered lists are disjoint and together hold
      exactly that currency's alerts. */
  lemma ActiveTriggeredPartition(s: seq<PriceAlert>, currency: string)
    ensures multiset(ActiveAlerts(s, currency)) + multiset(TriggeredAlerts(s, currency)) ==
      multiset(Seqs.Filter(s, InCurrency(currency)))
    ensures forall a :: a in ActiveAlerts(s, currency) ==> a !in TriggeredAlerts(s, currency)
  {
    Seqs.FilterPartition(s, InCurrency(currency), ActiveIn(currency), TriggeredIn(currency));
  }
}
