/** The radio task with its file-level variables changed in place. */
module CentralTask {
  import opened Bytes
  import opened Clock
  import opened Central

  predicate FromServer(ev: Ev)
  {
    ev.CallStartFind? || ev.CallStopFind? || ev.CallPairBegin? || ev.CallPairReply? || ev.CallPairCancel?
    || ev.CallDisconnect? || ev.CallForget? || ev.CallConnect?
  }

  predicate FromLink(ev: Ev)
  {
    ev.Established? || ev.EstablishFailed? || ev.Terminated? || ev.Advert? || ev.DiscoveryDone?
  }

  class Task {
    var link: Link
    var pair: Pairing
    var rec: Recovery
    var retry: Retry
    var ready: bool
    var faulted: bool
    var blocked: bool
    var candidates: nat
    ghost var radio: Radio
    ghost var log: seq<Act>

    ghost function Abstract(): (s: State)
      reads this
    {
      State(link, pair, rec, retry, ready, faulted, blocked, candidates, radio, log)
    }

    constructor (recovering: bool, faulty: bool, now: u32)
      ensures Booted(Abstract())
    {
      link := Link(Idle, NO_HANDLE, NoNext, Later(now, CANCEL_TIMEOUT_MS));
      pair := Pairing(false, false, false, false);
      rec := Recovery(recovering, false, false, 0);
      retry := Retry(0, 0, 0);
      ready, faulted, blocked, candidates := false, faulty, false, 0;
      radio, log := Free, [];
    }

    method Enter(state: Wc, now: u32, ms: nat)
      modifies this`link
      ensures Abstract() == SetState(old(Abstract()), state, now, ms)
    {
      link := link.(state := state, deadline := Later(now, ms));
    }

    method RadioFault()
      modifies this`link, this`faulted
      ensures Abstract() == Fault(old(Abstract()))
    {
      link := link.(next := NoNext);
      faulted := true;
    }

    method ReconnectSchedule(now: u32)
      modifies this`retry
      ensures Abstract() == Scheduled(old(Abstract()), now)
    {
      var step := retry.backoff;
      retry := retry.(at := Later(now, Delay(step)));
      retry := retry.(backoff := if step < 2 then step + 1 else 2);
    }

    method DisconnectedRetry(early: bool, e: Env)
      modifies this`retry, this`log
      ensures Abstract() == Retried(old(Abstract()), early, e)
    {
      if early && !faulted && !blocked && !rec.active && e.store == 1 && retry.early < EARLY_RETRY_LIMIT {
        retry := retry.(early := retry.early + 1);
        retry := retry.(at := e.now);
        log := log + [RetryNow];
      } else {
        ReconnectSchedule(e.now);
      }
    }

    method CancelDiscovery(now: u32)
      modifies this`link
      ensures Abstract() == StopScan(old(Abstract()), now)
    {
      if link.state != ScanStopping {
        Enter(ScanStopping, now, CANCEL_TIMEOUT_MS);
      }
    }

    method DropLink(now: u32)
      modifies this`link, this`pair
      ensures Abstract() == Disconnect(old(Abstract()), now)
    {
      link := link.(next := NoNext);
      pair := pair.(passkey := false);
      if link.state == Scan || link.state == Resolve {
        CancelDiscovery(now);
      } else if link.state == Connecting {
        Enter(ConnectCancel, now, CANCEL_TIMEOUT_MS);
      } else if link.state == Connected {
        Enter(Disconnecting, now, CANCEL_TIMEOUT_MS);
      }
    }

    method AbandonPair(e: Env)
      modifies this`link, this`pair, this`rec
      ensures Abstract() == FailPair(old(Abstract()), e)
    {
      if pair.pending {
        pair := pair.(pending := false);
        rec := Recovery(e.store == 3, false, false, 0);
        DropLink(e.now);
      }
    }

    method RequestLink(now: u32)
      modifies this`link, this`pair, this`log
      ensures Abstract() == Asked(old(Abstract()), now)
    {
      log := log + [Establish(link, faulted, radio)];
      link := link.(next := NoNext);
      Enter(Connecting, now, 20000);
      pair := pair.(started := false, bonded := false, passkey := false);
    }

    method LinkAnswered(e: Env)
      modifies this
      ensures Abstract() == Answered(old(Abstract()), e)
    {
      if e.linkOk {
        radio := Initiating;
      } else {
        Enter(Idle, e.now, 0);
        AbandonPair(e);
        ReconnectSchedule(e.now);
      }
    }

    method AskForLink(e: Env)
      modifies this
      ensures Abstract() == BeginLink(old(Abstract()), e)
    {
      if link.state != Idle || faulted || rec.active {
        return;
      }
      if !e.setOk {
        link := link.(next := NoNext);
        RadioFault();
        AbandonPair(e);
        return;
      }
      RequestLink(e.now);
      LinkAnswered(e);
    }

    method Attach(handle: u16, now: u32)
      modifies this`link, this`pair
      ensures Abstract() == Attached(old(Abstract()), handle, now)
    {
      link := link.(handle := handle);
      Enter(Connected, now, if pair.pending then 60000 else 30000);
      pair := pair.(started := false);
    }

    method Release(now: u32)
      modifies this`link, this`pair
      ensures Abstract() == Released(old(Abstract()), now)
    {
      link := link.(handle := NO_HANDLE);
      Enter(Idle, now, 0);
      pair := pair.(started := false, passkey := false);
    }

    method LinkEstablished(handle: u16, e: Env)
      modifies this
      ensures Abstract() == OnEstablished(old(Abstract()), handle, e)
    {
      if link.handle != NO_HANDLE {
        return;
      }
      var wanted := link.state == Connecting && !rec.active && !faulted && !blocked;
      Attach(handle, e.now);
      if !wanted {
        DropLink(e.now);
      } else if !pair.pending && !e.setOk {
        RadioFault();
        DropLink(e.now);
      }
    }

    method LinkFailed(lost: bool, e: Env)
      modifies this
      ensures Abstract() == OnEstablishFailed(old(Abstract()), lost, e)
    {
      if link.state == Connecting || link.state == ConnectCancel {
        var early := link.state == Connecting && !pair.pending && lost;
        Enter(Idle, e.now, 0);
        AbandonPair(e);
        DisconnectedRetry(early, e);
      }
    }

    method LinkTerminated(handle: u16, lost: bool, e: Env)
      modifies this
      ensures Abstract() == OnTerminated(old(Abstract()), handle, lost, e)
    {
      if link.handle == NO_HANDLE || handle != link.handle {
        return;
      }
      var early := link.state == Connected && !pair.pending && !pair.started && lost;
      Release(e.now);
      AbandonPair(e);
      DisconnectedRetry(early, e);
    }

    method ScanStopped(next: Next, clean: bool, e: Env)
      modifies this
      ensures Abstract() == OnScanStopped(old(Abstract()), next, clean, e)
    {
      if !clean {
        RadioFault();
        AbandonPair(e);
      } else if next != NoNext && !faulted && !rec.active {
        AskForLink(e);
      } else {
        DisconnectedRetry(false, e);
      }
    }

    method DiscoveryEnded(clean: bool, e: Env)
      modifies this
      ensures Abstract() == OnDiscoveryDone(old(Abstract()), clean, e)
    {
      if link.state == ScanStopping {
        var next := link.next;
        link := link.(next := NoNext);
        Enter(Idle, e.now, 0);
        ScanStopped(next, clean, e);
      } else if link.state == Scan {
        Enter(Idle, e.now, 0);
      } else if link.state == Resolve {
        Enter(Idle, e.now, 0);
        DisconnectedRetry(false, e);
      }
    }

    method BeginPairing(id: nat, e: Env)
      modifies this
      ensures Abstract() == PairBegin(old(Abstract()), id, e)
    {
      if !ready || faulted || rec.active || (link.state != Idle && link.state != ScanStopping)
         || id == 0 || id > candidates || !e.noBonds || !e.journalOk {
        return;
      }
      pair := pair.(pending := true);
      blocked := false;
      if link.state == ScanStopping {
        link := link.(next := NextPair);
      } else {
        AskForLink(e);
      }
    }

    method Find(ms: nat, e: Env)
      modifies this
      ensures Abstract() == StartFind(old(Abstract()), ms, e)
    {
      if !ready || faulted || rec.active || link.state != Idle {
        return;
      }
      candidates := 0;
      var ticks := if ms * 8 / 5 > 65535 then 65535 else ms * 8 / 5;
      if e.setOk {
        log := log + [Discover(link, faulted, radio)];
        if e.discoverOk {
          Enter(Scan, e.now, ticks * 5 / 8 + CANCEL_TIMEOUT_MS);
          radio := Discovering;
        }
      }
    }

    method Reconnect(e: Env)
      modifies this
      ensures Abstract() == ConnectPeer(old(Abstract()), e)
    {
      if !ready || faulted || blocked || rec.active || link.state != Idle {
        return;
      }
      if !e.identityOk {
        blocked := true;
        return;
      }
      if e.setOk {
        log := log + [Discover(link, faulted, radio)];
        if e.discoverOk {
          Enter(Resolve, e.now, 0);
          radio := Discovering;
          return;
        }
      }
      DisconnectedRetry(false, e);
    }

    method RollBack(e: Env)
      modifies this
      ensures Abstract() == PollRecovery(old(Abstract()), e)
    {
      if faulted {
        rec := rec.(active := false);
        return;
      }
      if link.state != Idle {
        return;
      }
      if rec.deadline == 0 {
        rec := rec.(deadline := Later(e.now, 5000));
      }
      if Due(e.now, rec.deadline) {
        rec := rec.(active := false);
      } else if !rec.erased {
        log := log + [Erase(link, faulted, radio)];
        if e.eraseOk {
          rec := rec.(erased := true);
        }
      } else if e.noBonds {
        rec := rec.(active := false);
        blocked := false;
      }
    }

    method StartEncryptedAdapter(e: Env)
      modifies this`pair
      ensures Abstract() == StartAdapter(old(Abstract()), e)
    {
      if link.state == Connected && !pair.started && !faulted && !blocked && e.encrypted {
        pair := pair.(started := true);
      }
    }

    method CompletePair(e: Env)
      modifies this`link, this`pair, this`rec
      ensures Abstract() == FinishPair(old(Abstract()), e)
    {
      if !e.identityOk {
        AbandonPair(e);
        return;
      }
      pair := pair.(pending := false);
      if !e.savedOk {
        rec := Recovery(true, false, false, 0);
        DropLink(e.now);
      }
    }

    method PollLink(e: Env)
      modifies this
      ensures Abstract() == PollConnected(old(Abstract()), e)
    {
      StartEncryptedAdapter(e);
      if pair.pending && pair.bonded && e.adapterReady {
        CompletePair(e);
      }
      if (!pair.started || (pair.pending && !pair.bonded)) && Due(e.now, link.deadline) {
        AbandonPair(e);
        DropLink(e.now);
      }
      if e.stillReady {
        retry := retry.(backoff := 0, early := 0);
        log := log + [ReadySeen];
      }
    }

    method PollOnce(e: Env)
      modifies this
      ensures Abstract() == Poll(old(Abstract()), e)
    {
      if !ready {
        if !faulted && Due(e.now, link.deadline) {
          RadioFault();
        }
        return;
      }
      if !faulted && Cancelling(link.state) && Due(e.now, link.deadline) {
        RadioFault();
        AbandonPair(e);
      }
      if rec.active {
        RollBack(e);
      } else if !faulted {
        PollOwner(e);
      }
    }

    method PollOwner(e: Env)
      requires ready && !rec.active && !faulted
      modifies this
      ensures Abstract() == PollIdleOrLink(old(Abstract()), e)
    {
      if link.state == Connected {
        PollLink(e);
      } else if link.state == Scan && Due(e.now, link.deadline) {
        DropLink(e.now);
      } else if link.state == Connecting && Due(e.now, link.deadline) {
        AbandonPair(e);
        DropLink(e.now);
      } else if link.state == Idle && !blocked && e.wantReconnect && Due(e.now, retry.at) {
        Reconnect(e);
      }
    }

    /** One callback of the stack, one call of the server or one poll. */
    method Dispatch(ev: Ev, e: Env)
      modifies this
      ensures Abstract() == Step(old(Abstract()), ev, e)
    {
      radio := Told(radio, ev);
      assert Abstract() == old(Abstract()).(radio := Told(old(radio), ev));
      if FromServer(ev) {
        OnCall(ev, e);
      } else if FromLink(ev) {
        OnLink(ev, e);
      } else {
        OnStack(ev, e);
      }
    }

    method OnLink(ev: Ev, e: Env)
      requires FromLink(ev)
      modifies this
      ensures Abstract() == Handle(old(Abstract()), ev, e)
    {
      match ev
      case Established(handle) => LinkEstablished(handle, e);
      case EstablishFailed(lost) => LinkFailed(lost, e);
      case Terminated(handle, lost) => LinkTerminated(handle, lost, e);
      case Advert(hit) => Advertisement(hit, e);
      case DiscoveryDone(clean) => DiscoveryEnded(clean, e);
    }

    method OnStack(ev: Ev, e: Env)
      requires !FromServer(ev) && !FromLink(ev)
      modifies this
      ensures Abstract() == Handle(old(Abstract()), ev, e)
    {
      match ev
      case InitDone(ok) => RadioReady(ok, e);
      case StartRejected =>
        if !faulted {
          RadioFault();
        }
      case Passcode(handle, inputs) => AskPasscode(handle, inputs, e);
      case PairState(handle, what, ok) => SecurityChanged(handle, what, ok, e);
      case Notification(handle) =>
        if handle == link.handle {
          StartEncryptedAdapter(e);
        }
      case Tick => PollOnce(e);
    }

    method RadioReady(ok: bool, e: Env)
      modifies this
      ensures Abstract() == OnInitDone(old(Abstract()), ok, e)
    {
      ready := ok && e.setOk;
      if !ready {
        RadioFault();
      }
    }

    method OnCall(ev: Ev, e: Env)
      requires FromServer(ev)
      modifies this
      ensures Abstract() == Handle(old(Abstract()), ev, e)
    {
      match ev
      case CallStartFind(ms) => Find(ms, e);
      case CallStopFind => EndFind(e);
      case CallPairBegin(id) => BeginPairing(id, e);
      case CallPairReply => AnswerPasscode(e);
      case CallPairCancel => AbandonPair(e);
      case CallDisconnect => DropLink(e.now);
      case CallForget => ForgetPeer(e);
      case CallConnect => Reconnect(e);
    }

    method EndFind(e: Env)
      modifies this
      ensures Abstract() == StopFind(old(Abstract()), e)
    {
      if link.state == Scan {
        link := link.(next := NoNext);
        CancelDiscovery(e.now);
      }
    }

    method ForgetPeer(e: Env)
      modifies this
      ensures Abstract() == Forget(old(Abstract()), e)
    {
      if e.journalOk {
        rec := Recovery(true, true, false, 0);
        DropLink(e.now);
      }
    }

    method Advertisement(hit: bool, e: Env)
      modifies this
      ensures Abstract() == OnAdvert(old(Abstract()), hit, e)
    {
      if link.state == Resolve {
        if !faulted && hit {
          link := link.(next := NextReconnect);
          CancelDiscovery(e.now);
        }
      } else if link.state == Scan && hit && candidates < MAX_CAND {
        candidates := candidates + 1;
      }
    }

    method AskPasscode(handle: u16, inputs: bool, e: Env)
      modifies this
      ensures Abstract() == OnPasscode(old(Abstract()), handle, inputs, e)
    {
      if handle != link.handle || link.state != Connected || !pair.pending {
        return;
      }
      if inputs {
        pair := pair.(passkey := true);
      } else if !e.replyOk {
        AbandonPair(e);
      }
    }

    method AnswerPasscode(e: Env)
      modifies this
      ensures Abstract() == PairReply(old(Abstract()), e)
    {
      if !pair.pending || link.state != Connected || !pair.passkey {
        return;
      }
      pair := pair.(passkey := false);
      if !e.replyOk {
        AbandonPair(e);
      }
    }

    method RefuseSecurity(now: u32)
      modifies this
      ensures Abstract() == Block(old(Abstract()), now)
    {
      blocked := true;
      DropLink(now);
    }

    method SecurityChanged(handle: u16, what: Security, ok: bool, e: Env)
      modifies this
      ensures Abstract() == OnPairState(old(Abstract()), handle, what, ok, e)
    {
      if what == Started && !pair.pending
         && (link.state == Connecting || (link.state == Connected && handle == link.handle)) {
        RefuseSecurity(e.now);
        return;
      }
      if handle != link.handle || link.state != Connected {
        return;
      }
      if what == Complete && !ok {
        if pair.pending {
          AbandonPair(e);
        } else {
          RefuseSecurity(e.now);
        }
      } else if what == Bonded && !ok && !pair.pending {
        RefuseSecurity(e.now);
      } else if what == BondSaved && pair.pending {
        if ok {
          pair := pair.(bonded := true);
        } else {
          AbandonPair(e);
        }
      }
    }
  }
}
