// The state that every relay task shares behind one mutex, and the closures
// that run under that mutex. A socket, and the task that serves it, is named by
// its accept number; a control registration, and with it the channel sender and
// the relay semaphore it created, is named by the control task that made it.
module RelayState {
  import opened Net

  datatype PendingInfo = PendingInfo(sock: nat, reg: nat)

  datatype TokenRes = HaveControl(reg: nat) | HaveConToken(peer: nat, reg: nat) | Drop

  datatype Shared = Shared(
    controls: map<Tx3Id, nat>,          // control_channels
    addrs: map<IpAddr, nat>,            // control_addrs
    pending: map<Tx3Id, PendingInfo>,   // pending_tokens
    limits: map<nat, nat>)              // free permits of each registration's relay_limit

  // Free permits of a relay semaphore.
  function Permits(limits: map<nat, nat>, reg: nat): nat {
    if reg in limits then limits[reg] else 0
  }

  function Release(limits: map<nat, nat>, reg: nat): map<nat, nat> {
    limits[reg := Permits(limits, reg) + 1]
  }

  function IpCount(addrs: map<IpAddr, nat>, ip: IpAddr): nat {
    if ip in addrs then addrs[ip] else 0
  }

  // HashMap::insert drops the entry it replaces, and with it the entry's permit.
  function InsertPending(sh: Shared, token: Tx3Id, info: PendingInfo): Shared {
    var limits := if token in sh.pending then Release(sh.limits, sh.pending[token].reg) else sh.limits;
    sh.(pending := sh.pending[token := info], limits := limits)
  }

  function RemovePending(sh: Shared, token: Tx3Id): Shared {
    if token in sh.pending then
      sh.(pending := sh.pending - {token}, limits := Release(sh.limits, sh.pending[token].reg))
    else sh
  }

  function LookupSpec(sh: Shared, token: Tx3Id, splice: Tx3Id, sock: nat): (Shared, TokenRes) {
    if token in sh.controls then
      var reg := sh.controls[token];
      var free := Permits(sh.limits, reg);
      if free == 0 then (sh, Drop)
      else (InsertPending(sh.(limits := sh.limits[reg := free - 1]), splice, PendingInfo(sock, reg)),
            HaveControl(reg))
    else if token in sh.pending then
      (sh.(pending := sh.pending - {token}),
       HaveConToken(sh.pending[token].sock, sh.pending[token].reg))
    else (sh, Drop)
  }

  function RegisterSpec(sh: Shared, ip: IpAddr, cert: Tx3Id, reg: nat, maxPerIp: nat, maxRelays: nat)
    : (Shared, bool)
  {
    var count := IpCount(sh.addrs, ip);
    if count < maxPerIp then
      (sh.(addrs := sh.addrs[ip := count + 1],
           controls := sh.controls[cert := reg],
           limits := sh.limits[reg := maxRelays]), true)
    else
      (sh.(addrs := sh.addrs[ip := count]), false)
  }

  function CleanupSpec(sh: Shared, ip: IpAddr, cert: Tx3Id): Shared {
    var count := IpCount(sh.addrs, ip);
    var addrs := if count <= 1 then sh.addrs - {ip} else sh.addrs[ip := count - 1];
    sh.(addrs := addrs, controls := sh.controls - {cert})
  }

  class RelayState {
    var controlChannels: map<Tx3Id, nat>
    var controlAddrs: map<IpAddr, nat>
    var pendingTokens: map<Tx3Id, PendingInfo>
    var relayLimits: map<nat, nat>

    ghost function View(): Shared
      reads this
    {
      Shared(controlChannels, controlAddrs, pendingTokens, relayLimits)
    }

    constructor ()
      ensures View() == Shared(map[], map[], map[], map[])
    {
      controlChannels, controlAddrs, pendingTokens, relayLimits := map[], map[], map[], map[];
    }

    method TryAcquire(reg: nat) returns (ok: bool)
      modifies this`relayLimits
      ensures ok == (Permits(old(relayLimits), reg) > 0)
      ensures ok ==> relayLimits == old(relayLimits)[reg := old(relayLimits)[reg] - 1]
      ensures !ok ==> relayLimits == old(relayLimits)
    {
      ok := reg in relayLimits && relayLimits[reg] > 0;
      if ok {
        relayLimits := relayLimits[reg := relayLimits[reg] - 1];
      }
    }

    method ReleasePermit(reg: nat)
      modifies this`relayLimits
      ensures relayLimits == Release(old(relayLimits), reg)
    {
      var free := if reg in relayLimits then relayLimits[reg] else 0;
      relayLimits := relayLimits[reg := free + 1];
    }

    // process_socket: what does the presented token name?
    method Lookup(token: Tx3Id, splice: Tx3Id, sock: nat) returns (res: TokenRes)
      modifies this
      ensures (View(), res) == LookupSpec(old(View()), token, splice, sock)
    {
      if token in controlChannels {
        var reg := controlChannels[token];
        var ok := TryAcquire(reg);
        if !ok {
          return Drop;
        }
        if splice in pendingTokens {
          ReleasePermit(pendingTokens[splice].reg);
        }
        pendingTokens := pendingTokens[splice := PendingInfo(sock, reg)];
        res := HaveControl(reg);
      } else if token in pendingTokens {
        var info := pendingTokens[token];
        pendingTokens := pendingTokens - {token};
        res := HaveConToken(info.sock, info.reg);
      } else {
        res := Drop;
      }
    }

    // The reaper: drop an entry that was not claimed in time.
    method Reap(token: Tx3Id)
      modifies this
      ensures View() == RemovePending(old(View()), token)
    {
      if token in pendingTokens {
        var info := pendingTokens[token];
        pendingTokens := pendingTokens - {token};
        ReleasePermit(info.reg);
      }
    }

    // process_relay_control, after the TLS handshake.
    method Register(ip: IpAddr, cert: Tx3Id, reg: nat, maxPerIp: nat, maxRelays: nat) returns (ok: bool)
      modifies this
      ensures (View(), ok) == RegisterSpec(old(View()), ip, cert, reg, maxPerIp, maxRelays)
    {
      if ip !in controlAddrs {
        controlAddrs := controlAddrs[ip := 0];
      }
      if controlAddrs[ip] < maxPerIp {
        controlAddrs := controlAddrs[ip := controlAddrs[ip] + 1];
      } else {
        assert controlAddrs == old(controlAddrs)[ip := IpCount(old(controlAddrs), ip)];
        return false;
      }
      assert controlAddrs == old(controlAddrs)[ip := IpCount(old(controlAddrs), ip) + 1];
      relayLimits := relayLimits[reg := maxRelays];
      controlChannels := controlChannels[cert := reg];
      ok := true;
    }

    // process_relay_control, after its inner loop has ended.
    method Cleanup(ip: IpAddr, cert: Tx3Id)
      modifies this
      ensures View() == CleanupSpec(old(View()), ip, cert)
    {
      var empty := false;
      if ip in controlAddrs {
        if controlAddrs[ip] > 0 {
          controlAddrs := controlAddrs[ip := controlAddrs[ip] - 1];
        }
        empty := controlAddrs[ip] == 0;
      }
      if empty {
        controlAddrs := controlAddrs - {ip};
      }
      controlChannels := controlChannels - {cert};
    }
  }
}
