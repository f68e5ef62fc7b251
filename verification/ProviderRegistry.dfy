/**
  Registering the market's address provider: once by the deploy step, if one of the local signers owns
  the registry, and otherwise once by the launch batch.
 */
module ProviderRegistry {
  import opened Wrappers
  import opened Chain
  import opened Launch
  import opened EvmHalf
  import opened LaunchProofs

  datatype Outcome = InvalidProvider | AlreadyRegistered | Deferred | Registered | Reverted

  /** The registry contract; only its owner may register, and neither a provider nor an id twice. */
  class RegistryContract {
    var ids: map<Address, nat>
    const owner: Address

    constructor (r: Registry)
      ensures State() == r
    {
      ids, owner := r.ids, r.owner;
    }

    ghost function State(): Registry
      reads this
    {
      Registry(owner, ids)
    }

    method RegisterAddressesProvider(from: Address, provider: Address, id: nat) returns (ok: bool)
      modifies this
      ensures ok <==> Accepts(old(State()), from, provider, id)
      ensures State() == if ok then Registry(owner, old(ids)[provider := id]) else old(State())
    {
      var current := Registry(owner, ids);
      ok := Accepts(current, from, provider, id);
      if ok {
        ids := ids[provider := id];
      }
    }

    /** The deploy step: `provider` is `None` when the argument is no usable address. */
    method AddMarketToRegistry(providerId: nat, provider: Option<Address>, signers: set<Address>)
      returns (outcome: Outcome)
      modifies this
      ensures outcome == DeployOutcome(old(State()), providerId, provider, signers)
      ensures State() == DeployStep(old(State()), providerId, provider, signers)
    {
      if provider.None? {
        return InvalidProvider;
      }
      var existingId := if provider.value in ids then ids[provider.value] else 0;
      if existingId > 0 {
        return AlreadyRegistered;
      }
      var controllable := owner in signers;
      if !controllable {
        return Deferred;
      }
      var ok := RegisterAddressesProvider(owner, provider.value, providerId);
      outcome := if ok then Registered else Reverted;
    }
  }

  predicate Accepts(r: Registry, from: Address, provider: Address, id: nat) {
    from == r.owner && id != 0 && ProviderId(r, provider) == 0 && IdFree(r, id)
  }

  predicate IdFree(r: Registry, id: nat) {
    forall p :: p in r.ids ==> r.ids[p] != id
  }

  function DeployOutcome(r: Registry, providerId: nat, provider: Option<Address>, signers: set<Address>): Outcome {
    if provider.None? then InvalidProvider
    else if ProviderId(r, provider.value) > 0 then AlreadyRegistered
    else if r.owner !in signers then Deferred
    else if Accepts(r, r.owner, provider.value, providerId) then Registered else Reverted
  }

  function DeployStep(r: Registry, providerId: nat, provider: Option<Address>, signers: set<Address>): Registry {
    if DeployOutcome(r, providerId, provider, signers).Registered?
    then r.(ids := r.ids[provider.value := providerId]) else r
  }

  // ---------------------------------------------------------------- the batch's own registration

  predicate NoRegistration(cs: seq<EvmCall>) {
    forall i :: 0 <= i < |cs| ==> !(cs[i].Admin? && cs[i].admin.RegisterProvider?)
  }

  lemma {:induction false} RegistryKept(e: Evm, regs: set<nat>, from: Address, cs: seq<EvmCall>)
    requires NoRegistration(cs)
    ensures RunEvm(e, regs, from, cs).registry == e.registry
    decreases cs
  {
    if cs != [] {
      RegistryKept(EvmStep(e, regs, from, cs[0]), regs, from, cs[1..]);
    }
  }

  lemma OtherCallsRegisterNothing(m: Market, e: Evm, a: Address, v: Address, emitted: bool)
    ensures NoRegistration(InitReserveCalls(m, e) + ReviewCalls(m, e))
    ensures NoRegistration(HollarReserveCalls(m) + MaybeFacilitatorCalls(m, a, emitted) + CrossRefCalls(m, a, v))
  {
  }

  lemma Regroup(a: seq<EvmCall>, b: seq<EvmCall>, c: seq<EvmCall>, d: seq<EvmCall>)
    ensures (a + (b + c)) + d == (a + b) + (c + d)
  {
  }

  /** The batch writes the registry at most once: its one entry, when the manager may and the id is free. */
  lemma BatchRegistry(m: Market, s: Chain)
    requires MarketOk(m)
    ensures FinalEvm(m, s).registry
      == (if Accepts(s.evm.registry, m.manager, m.provider, m.providerId)
          then s.evm.registry.(ids := s.evm.registry.ids[m.provider := m.providerId]) else s.evm.registry)
  {
    var e, regs := s.evm, FinalRegistered(m, s);
    var a, v, emitted := PredictedAToken(m, e), PredictedDebt(m, e), FacilitatorEmitted(m, e);
    var first, reg := InitReserveCalls(m, e) + ReviewCalls(m, e), RegistryCalls(m, e);
    var last := HollarReserveCalls(m) + MaybeFacilitatorCalls(m, a, emitted) + CrossRefCalls(m, a, v);
    BilEvmShape(m, e);
    Regroup(InitReserveCalls(m, e), ReviewCalls(m, e), reg, last);
    assert BilEvmCalls(m, e) == first + (reg + last);
    OtherCallsRegisterNothing(m, e, a, v, emitted);
    RunEvmAppend(e, regs, m.manager, first, reg + last);
    RegistryKept(e, regs, m.manager, first);
    var e1 := RunEvm(e, regs, m.manager, first);
    RunEvmAppend(e1, regs, m.manager, reg, last);
    RegistryKept(RunEvm(e1, regs, m.manager, reg), regs, m.manager, last);
    if reg != [] {
      RunOne(e1, regs, m.manager, reg[0]);
    }
  }

  /** The registry after the batch was executed; an aborted batch leaves it alone. */
  function AfterBatch(m: Market, s: Chain): Registry {
    var t := Run(s, BilProposal(m, s));
    if t.Some? then t.value.evm.registry else s.evm.registry
  }

  /**
    Deploy step, then the batch, committed or aborted: the provider is registered exactly once in all,
    under the market's id, whenever it was unregistered, the id was free, and the registry's owner is a
    local signer, or is the manager and no name clash aborts the batch; otherwise neither step writes
    anything. No other provider's entry changes.
   */
  lemma RegisteredExactlyOnce(m: Market, s: Chain, signers: set<Address>)
    requires MarketOk(m)
    ensures var r0 := s.evm.registry;
      var r1 := DeployStep(r0, m.providerId, Some(m.provider), signers);
      var r2 := AfterBatch(m, s.(evm := s.evm.(registry := r1)));
      var possible := m.providerId != 0 && IdFree(r0, m.providerId)
        && (r0.owner in signers || (r0.owner == m.manager && !NameClash(m, s.sub)));
      && (if r1 != r0 then 1 else 0) + (if r2 != r1 then 1 else 0)
         == (if ProviderId(r0, m.provider) == 0 && possible then 1 else 0)
      && ProviderId(r2, m.provider)
         == (if ProviderId(r0, m.provider) > 0 then ProviderId(r0, m.provider)
             else if possible then m.providerId else 0)
      && (forall p :: p != m.provider ==> ProviderId(r2, p) == ProviderId(r0, p))
  {
    var r0 := s.evm.registry;
    var r1 := DeployStep(r0, m.providerId, Some(m.provider), signers);
    var s1 := s.(evm := s.evm.(registry := r1));
    BatchRegistry(m, s1);
    BilOutcome(m, s1);
    if Accepts(r0, r0.owner, m.provider, m.providerId) {
      var written := r0.ids[m.provider := m.providerId];
      assert ProviderId(Registry(r0.owner, written), m.provider) == m.providerId;
      assert written != r0.ids;
    }
  }
}
