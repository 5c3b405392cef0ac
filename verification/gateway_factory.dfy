/** The gateway registry (`PaymentGatewayFactory` in
    ECommerceAPI/Services/PaymentGatewayFactory.cs): built once from the registered
    simulators, keyed by gateway type, and read-only afterwards, so it is a value. */
module GatewayFactory {
  import opened PaymentEnums
  import opened Wrappers
  import opened Gateways
  import opened Simulator

  datatype FactoryError =
    | DuplicateGateway(gateway: PaymentGateway)   // `ToDictionary` meets a key twice
    | UnsupportedGateway(gateway: PaymentGateway)  // `GetGateway` on an unregistered provider

  /** `_gateways`: the simulators by gateway type, with the order they were registered
      in, which is the order the dictionary enumerates them. `store` is the static
      `_transactions` every simulator writes to. */
  datatype Registry = Registry(store: TransactionStore, gateways: map<PaymentGateway, PaymentSimulator>,
                               order: seq<PaymentGateway>) {

    /** Every registered type appears once in `order` and maps to a simulator of that
        type, and all the simulators write to the one store. */
    predicate Valid() {
      && Distinct(order)
      && (forall i :: 0 <= i < |order| ==> order[i] in gateways)
      && (forall g :: g in gateways ==> g in order && gateways[g].gatewayType == g)
      && (forall g :: g in gateways ==> gateways[g].store == store)
    }
  }

  predicate Distinct(s: seq<PaymentGateway>) {
    forall i, j :: 0 <= i < j < |s| ==> s[i] != s[j]
  }

  /** `_transactions` is static: whatever simulators the application builds, they all
      read and write that one dictionary. */
  predicate AllHold(sims: seq<PaymentSimulator>, store: TransactionStore) {
    forall i :: 0 <= i < |sims| ==> sims[i].store == store
  }

  /** The key `ToDictionary` files each simulator under. */
  function GatewayTypes(sims: seq<PaymentSimulator>): seq<PaymentGateway>
  {
    seq(|sims|, i requires 0 <= i < |sims| => sims[i].gatewayType)
  }

  /** `after` is `reg` with `sims` registered behind what it holds: a valid registry on
      the same store, the types appended to the order, the old entries kept and each of
      `sims` filed under its type. */
  predicate Extends(reg: Registry, sims: seq<PaymentSimulator>, after: Registry) {
    && after.Valid()
    && after.store == reg.store
    && after.order == reg.order + GatewayTypes(sims)
    && (forall g :: g in reg.gateways ==> g in after.gateways && after.gateways[g] == reg.gateways[g])
    && (forall i :: 0 <= i < |sims| ==>
          sims[i].gatewayType in after.gateways && after.gateways[sims[i].gatewayType] == sims[i])
  }

  /** Adds `sims` in order to `reg`, failing on the first simulator whose type is
      already present. */
  function AddAll(reg: Registry, sims: seq<PaymentSimulator>): (r: Result<Registry, FactoryError>)
    requires reg.Valid() && AllHold(sims, reg.store)
    ensures r.Success? <==> Distinct(reg.order + GatewayTypes(sims))
    ensures r.Success? ==> Extends(reg, sims, r.value)
    ensures r.Failure? ==> r.error.DuplicateGateway?
    decreases |sims|
  {
    if sims == [] then
      assert reg.order + GatewayTypes(sims) == reg.order;
      Success(reg)
    else
      var s := sims[0];
      TypesUnfold(reg.order, sims);
      if s.gatewayType in reg.gateways then
        RepeatedKeyNotDistinct(reg, s.gatewayType, GatewayTypes(sims[1..]));
        Failure(DuplicateGateway(s.gatewayType))
      else
        var next := Add(reg, s);
        AllHoldTail(sims, reg.store);
        var r := AddAll(next, sims[1..]);
        if r.Success? then
          ExtendsStep(reg, sims, r.value);
          r
        else
          r
  }

  lemma AllHoldTail(sims: seq<PaymentSimulator>, store: TransactionStore)
    requires sims != [] && AllHold(sims, store)
    ensures AllHold(sims[1..], store)
  {
    assert forall i :: 0 <= i < |sims[1..]| ==> sims[1..][i] == sims[i + 1];
  }

  /** Registering the first simulator and then the rest extends `reg` by all of them. */
  lemma {:induction false} ExtendsStep(reg: Registry, sims: seq<PaymentSimulator>, after: Registry)
    requires sims != [] && reg.Valid() && sims[0].gatewayType !in reg.gateways && sims[0].store == reg.store
    requires Extends(Add(reg, sims[0]), sims[1..], after)
    ensures Extends(reg, sims, after)
  {
    assert sims == [sims[0]] + sims[1..];
    StepOrder(reg, sims[0], sims[1..], after);
    StepKept(reg, sims[0], sims[1..], after);
    StepFiled(reg, sims[0], sims[1..], after);
  }

  lemma StepKept(reg: Registry, s: PaymentSimulator, rest: seq<PaymentSimulator>, after: Registry)
    requires reg.Valid() && s.gatewayType !in reg.gateways && s.store == reg.store
    requires Extends(Add(reg, s), rest, after)
    ensures after.Valid() && after.store == reg.store
    ensures forall g :: g in reg.gateways ==> g in after.gateways && after.gateways[g] == reg.gateways[g]
  {
  }

  lemma StepOrder(reg: Registry, s: PaymentSimulator, rest: seq<PaymentSimulator>, after: Registry)
    requires reg.Valid() && s.gatewayType !in reg.gateways && s.store == reg.store
    requires Extends(Add(reg, s), rest, after)
    ensures after.order == reg.order + GatewayTypes([s] + rest)
  {
    var sims := [s] + rest;
    assert sims[0] == s && sims[1..] == rest;
    TypesUnfold(reg.order, sims);
  }

  lemma StepFiled(reg: Registry, s: PaymentSimulator, rest: seq<PaymentSimulator>, after: Registry)
    requires reg.Valid() && s.gatewayType !in reg.gateways && s.store == reg.store
    requires Extends(Add(reg, s), rest, after)
    ensures var sims := [s] + rest; forall i :: 0 <= i < |sims| ==>
      sims[i].gatewayType in after.gateways && after.gateways[sims[i].gatewayType] == sims[i]
  {
    var sims := [s] + rest;
    forall i | 0 <= i < |sims|
      ensures sims[i].gatewayType in after.gateways && after.gateways[sims[i].gatewayType] == sims[i]
    {
      if i > 0 {
        assert sims[i] == rest[i - 1];
      }
    }
  }

  /** One `Dictionary.Add` of a new key. */
  function Add(reg: Registry, s: PaymentSimulator): (next: Registry)
    requires reg.Valid() && s.gatewayType !in reg.gateways
    requires s.store == reg.store
    ensures next.Valid() && next.store == reg.store
    ensures next.order == reg.order + [s.gatewayType]
    ensures next.gateways == reg.gateways[s.gatewayType := s]
  {
    var next := Registry(reg.store, reg.gateways[s.gatewayType := s], reg.order + [s.gatewayType]);
    assert forall i :: 0 <= i < |reg.order| ==> next.order[i] == reg.order[i];
    next
  }

  lemma TypesUnfold(order: seq<PaymentGateway>, sims: seq<PaymentSimulator>)
    requires sims != []
    ensures order + GatewayTypes(sims) == (order + [sims[0].gatewayType]) + GatewayTypes(sims[1..])
  {
  }

  lemma RepeatedKeyNotDistinct(reg: Registry, g: PaymentGateway, rest: seq<PaymentGateway>)
    requires reg.Valid() && g in reg.gateways
    ensures !Distinct((reg.order + [g]) + rest)
  {
    var types := (reg.order + [g]) + rest;
    var k :| 0 <= k < |reg.order| && reg.order[k] == g;
    assert types[k] == g && types[|reg.order|] == g;
  }

  /** The constructor, `gateways.ToDictionary(g => g.GatewayType)`: it succeeds exactly
      when no two simulators share a type, and then files each one under its type. The
      simulators all hold the static store, so the registry does too. */
  function Create(store: TransactionStore, sims: seq<PaymentSimulator>): (r: Result<Registry, FactoryError>)
    requires AllHold(sims, store)
    ensures r.Success? <==> Distinct(GatewayTypes(sims))
    ensures r.Success? ==>
      && r.value.Valid()
      && r.value.store == store
      && r.value.order == GatewayTypes(sims)
      && r.value.gateways.Keys == (set i | 0 <= i < |sims| :: sims[i].gatewayType)
      && (forall i :: 0 <= i < |sims| ==>
            sims[i].gatewayType in r.value.gateways && r.value.gateways[sims[i].gatewayType] == sims[i])
    ensures r.Failure? ==> r.error.DuplicateGateway?
  {
    var empty := Registry(store, map[], []);
    assert empty.order + GatewayTypes(sims) == GatewayTypes(sims);
    var r := AddAll(empty, sims);
    if r.Success? then
      CreatedKeys(empty, sims, r.value);
      r
    else
      r
  }

  /** Registering `sims` on an empty registry keys it by exactly their types. */
  lemma CreatedKeys(empty: Registry, sims: seq<PaymentSimulator>, after: Registry)
    requires empty.gateways == map[] && empty.order == []
    requires Extends(empty, sims, after)
    ensures after.gateways.Keys == (set i | 0 <= i < |sims| :: sims[i].gatewayType)
  {
    assert after.order == GatewayTypes(sims);
    forall g | g in after.gateways
      ensures g in (set i | 0 <= i < |sims| :: sims[i].gatewayType)
    {
      var k :| 0 <= k < |after.order| && after.order[k] == g;
      assert sims[k].gatewayType == g;
    }
  }

  /** `GetGateway`: the simulator registered for `gateway`, or the unsupported-provider
      error. */
  function GetGateway(reg: Registry, gateway: PaymentGateway): (r: Result<PaymentSimulator, FactoryError>)
    ensures r.Success? <==> gateway in reg.gateways
    ensures r.Success? ==> r.value == reg.gateways[gateway]
    ensures reg.Valid() && r.Success? ==> r.value.gatewayType == gateway && r.value.store == reg.store
    ensures r.Failure? ==> r.error == UnsupportedGateway(gateway)
  {
    if gateway in reg.gateways then Success(reg.gateways[gateway]) else Failure(UnsupportedGateway(gateway))
  }

  /** `GetAllGateways`: one descriptor per registered simulator, in registration order. */
  function GetAllGateways(reg: Registry): (infos: seq<GatewayInfo>)
    requires reg.Valid()
    ensures |infos| == |reg.order|
    ensures forall i :: 0 <= i < |infos| ==> infos[i] == reg.gateways[reg.order[i]].GetGatewayInfo()
    ensures forall g :: g in reg.gateways <==> exists i :: 0 <= i < |infos| && infos[i].gateway == g
    ensures forall i, j :: 0 <= i < j < |infos| ==> infos[i].gateway != infos[j].gateway
    ensures forall i :: 0 <= i < |infos| ==>
      infos[i].isActive && infos[i].isSimulated && infos[i].supportedCardTypes == [Visa, MasterCard, AmericanExpress]
  {
    var infos := seq(|reg.order|, i requires 0 <= i < |reg.order| => reg.gateways[reg.order[i]].GetGatewayInfo());
    assert forall g :: g in reg.gateways ==> exists i :: 0 <= i < |infos| && infos[i].gateway == g by {
      forall g | g in reg.gateways
        ensures exists i :: 0 <= i < |infos| && infos[i].gateway == g
      {
        var i :| 0 <= i < |reg.order| && reg.order[i] == g;
        assert infos[i].gateway == g;
      }
    }
    infos
  }

  /** The registration of the running service (Stripe, PayPal, MercadoPago) builds a
      registry in which every provider resolves to its own simulator, so the
      unsupported-provider error never arises there. */
  lemma RegisteredProvidersResolve(stripe: PaymentSimulator, paypal: PaymentSimulator, mercadoPago: PaymentSimulator,
                                   gateway: PaymentGateway)
    requires stripe.gatewayType == Stripe && paypal.gatewayType == PayPal && mercadoPago.gatewayType == MercadoPago
    requires stripe.store == paypal.store == mercadoPago.store
    ensures var r := Create(stripe.store, [stripe, paypal, mercadoPago]);
      && r.Success?
      && GetGateway(r.value, gateway).Success?
      && GetGateway(r.value, gateway).value.gatewayType == gateway
      && GetGateway(r.value, Stripe) == Success(stripe)
      && GetGateway(r.value, PayPal) == Success(paypal)
      && GetGateway(r.value, MercadoPago) == Success(mercadoPago)
      && |GetAllGateways(r.value)| == 3
  {
    var r := Create(stripe.store, [stripe, paypal, mercadoPago]);
    ThreeProvidersRegister(stripe, paypal, mercadoPago);
    assert gateway in r.value.gateways;
  }

  /** The three registered simulators have distinct types, so construction succeeds
      and files all three. */
  lemma ThreeProvidersRegister(stripe: PaymentSimulator, paypal: PaymentSimulator, mercadoPago: PaymentSimulator)
    requires stripe.gatewayType == Stripe && paypal.gatewayType == PayPal && mercadoPago.gatewayType == MercadoPago
    requires stripe.store == paypal.store == mercadoPago.store
    ensures var r := Create(stripe.store, [stripe, paypal, mercadoPago]);
      && r.Success?
      && Stripe in r.value.gateways && PayPal in r.value.gateways && MercadoPago in r.value.gateways
      && r.value.gateways[Stripe] == stripe && r.value.gateways[PayPal] == paypal
      && r.value.gateways[MercadoPago] == mercadoPago
      && |r.value.order| == 3
  {
    var sims := [stripe, paypal, mercadoPago];
    var types := GatewayTypes(sims);
    assert AllHold(sims, stripe.store);
    assert types == [Stripe, PayPal, MercadoPago];
    assert Distinct(types);
    var r := Create(stripe.store, sims);
    assert sims[0].gatewayType == Stripe && sims[1].gatewayType == PayPal && sims[2].gatewayType == MercadoPago;
  }
}
