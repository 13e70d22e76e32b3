/** The voice engine with its fields changed in place. */
module AtvvEngine {
  import opened Bytes
  import opened Clock
  import opened Options
  import opened Atvv

  class Engine {
    var caps: Option<Caps>
    var mic: Mic
    var st: Stream
    var now: u32
    var lastExtend: u32
    const seeded: bool
    ghost var window: nat
    ghost var forwarded: nat
    ghost var log: seq<Out>

    ghost function Abstract(): (s: State)
      reads this
    {
      State(caps, mic, st, now, lastExtend, seeded, window, forwarded, log)
    }

    constructor (profileSeeded: bool)
      ensures Initial(Abstract()) && seeded == profileSeeded
    {
      seeded := profileSeeded;
      caps := None;
      mic := Mic(false, false, false, false, 0);
      st := Stream(false, 0, 0, 0, false, false, false, 0, SEED);
      now, lastExtend := 0, 0;
      window, forwarded, log := 0, 0, [];
    }

    ghost method Emit(o: Out)
      modifies this`log
      ensures Abstract() == Say(old(Abstract()), o)
    {
      log := log + [o];
    }

    method Stop(e: Env) returns (ok: bool)
      modifies this
      ensures Abstract() == RequestStop(old(Abstract()), e)
    {
      if mic.pending && !st.active {
        if mic.queued {
          mic := mic.(queued := false, pending := false);
        } else {
          mic := mic.(closing := true);
        }
        return true;
      }
      if !st.active {
        return false;
      }
      if mic.closing {
        return true;
      }
      Emit(MicClose(st.id, e.write));
      if e.write {
        mic := mic.(closing := true, closeQueued := false);
      } else {
        if !mic.closeQueued {
          mic := mic.(deadline := Later(now, 1000));
        }
        mic := mic.(closeQueued := true);
      }
      ok := e.write;
    }

    method Open(e: Env) returns (ok: bool)
      modifies this
      ensures ok == MayStart(old(Abstract()), e)
      ensures Abstract() == RequestStart(old(Abstract()), e)
    {
      if caps.None? || st.active || mic.pending || !e.want {
        return false;
      }
      window := window + 1;
      Emit(MicOpen(window, e.open));
      mic := mic.(queued := !e.open, pending := true, closing := false, deadline := Later(now, OPEN_WAIT_MS));
      ok := true;
    }

    method Fail(reason: nat, e: Env)
      modifies this
      ensures Abstract() == Failed(old(Abstract()), reason, e)
    {
      if st.failed {
        return;
      }
      st := st.(failed := true, ready := false);
      Emit(Fault(reason));
      var ok := Stop(e);
    }

    method Announce()
      modifies this
      ensures Abstract() == Announced(old(Abstract()))
    {
      if st.announced {
        Emit(Format(st.rate, st.config));
      } else {
        st := st.(announced := true);
        Emit(Started(st.rate, st.config));
      }
    }

    method Begin(d: seq<byte>)
      requires |d| == 4
      modifies this
      ensures Abstract() == Seeded(Fresh(old(Abstract()), d))
    {
      st := Stream(true, d[3], 0, 0, false, false, false, Rate(d[2]), st.config);
      mic := mic.(pending := false, queued := false, closing := false, closeQueued := false);
      lastExtend := now;
      forwarded := 0;
      Emit(SourceBegin);
      if seeded {
        st := st.(config := SEED, ready := true);
        Announce();
      }
    }

    method ControlStart(d: seq<byte>, e: Env)
      modifies this
      ensures Abstract() == OnStart(old(Abstract()), d, e)
    {
      if st.active {
        Fail(END_SOURCE_DATA_LOST, e);
        return;
      }
      if |d| != 4 || caps.None? || Rate(d[2]) == 0 || !Offers(caps.value, d[2])
         || (d[1] != 0 && d[1] != 1 && d[1] != 3)
         || (if d[1] == 0 then d[3] != 0 else d[3] == 0 || d[3] > 0x80)
         || (d[1] != 0 && d[1] != caps.value.interaction) {
        return;
      }
      var stopAfterOpen := mic.closing && mic.pending;
      Begin(d);
      if stopAfterOpen {
        var ok := Stop(e);
      }
    }

    method ControlSync(d: seq<byte>, e: Env)
      modifies this
      ensures Abstract() == OnSync(old(Abstract()), d, e)
    {
      if !st.active || st.failed {
        return;
      }
      if |d| != 7 || caps.None? || Rate(d[1]) == 0 || !Offers(caps.value, d[1]) || d[6] > 88 {
        Fail(END_INVALID_DATA, e);
        return;
      }
      if Big(d[2], d[3]) != st.frameNo || st.frameBytes != 0 {
        Fail(END_SOURCE_DATA_LOST, e);
        return;
      }
      st := st.(config := [d[5], d[4], d[6], 0], ready := true, rate := Rate(d[1]));
      Announce();
    }

    method ControlStop(d: seq<byte>)
      modifies this
      ensures Abstract() == OnStop(old(Abstract()), d)
    {
      if |d| != 2 || !st.active {
        return;
      }
      st := st.(active := false, ready := false);
      mic := mic.(closing := false, closeQueued := false);
      Emit(Ended(if d[1] == 0 || d[1] == 2 || d[1] == 4 then END_NORMAL else END_DEVICE_ERROR));
    }

    method ControlOpenError(d: seq<byte>, e: Env)
      modifies this
      ensures Abstract() == OnOpenError(old(Abstract()), d, e)
    {
      if |d| != 3 {
        return;
      }
      var busy := Big(d[1], d[2]) == ERR_BUSY;
      if mic.pending && !st.active {
        mic := mic.(queued := false);
        if !busy {
          mic := mic.(pending := false, closing := false);
          Emit(Fault(END_DEVICE_ERROR));
        }
        return;
      }
      mic := mic.(pending := false, queued := false, closing := false);
      if st.active && !busy {
        Fail(END_DEVICE_ERROR, e);
      }
    }

    method ControlCaps(d: seq<byte>)
      modifies this
      ensures Abstract() == OnCaps(old(Abstract()), d)
    {
      var parsed := ParseCaps(d);
      if st.active || parsed.None? {
        return;
      }
      caps := parsed;
      st := st.(rate := if parsed.value.codecs >= 2 then 16000 else 8000);
    }

    /** `rc003_atvv_on_control`. */
    method HandleControl(d: seq<byte>, e: Env)
      modifies this
      ensures Abstract() == OnControl(old(Abstract()), d, e)
    {
      if d == [] {
        return;
      }
      if d[0] == CAPS_RESP {
        ControlCaps(d);
      } else if d[0] == START {
        ControlStart(d, e);
      } else if d[0] == SYNC {
        ControlSync(d, e);
      } else if d[0] == STOP {
        ControlStop(d);
      } else if d[0] == START_SEARCH {
        if |d| == 1 {
          var ok := Open(e);
        }
      } else if d[0] == OPEN_ERROR {
        ControlOpenError(d, e);
      }
    }

    /** `rc003_atvv_on_audio`. */
    method HandleAudio(d: seq<byte>, e: Env)
      modifies this
      ensures Abstract() == OnAudio(old(Abstract()), d, e)
    {
      if !st.active || st.failed {
        return;
      }
      if d == [] || |d| > MAX_FRAME || caps.None? || caps.value.frameSize == 0 || !st.ready {
        Fail(END_INVALID_DATA, e);
        return;
      }
      var bytes := st.frameBytes + |d|;
      st := st.(frameNo := (st.frameNo + bytes / caps.value.frameSize) % 0x1_0000, frameBytes := bytes % caps.value.frameSize);
      forwarded := forwarded + |d|;
      Emit(Encoded(d));
    }

    method KeepStream(e: Env)
      modifies this
      ensures Abstract() == Kept(old(Abstract()), e)
    {
      if mic.closeQueued {
        if Due(now, mic.deadline) {
          mic := mic.(closeQueued := false);
          Fail(END_DEVICE_ERROR, e);
        } else {
          var ok := Stop(e);
        }
      } else if st.failed && st.active && !mic.closing {
        var ok := Stop(e);
      } else if st.active && !mic.closing && !st.failed && (now - lastExtend) % (U32_MAX + 1) >= 5000 {
        Emit(MicExtend(st.id, e.write));
        if e.write {
          lastExtend := now;
        }
      }
    }

    method ExpireOpen()
      modifies this
      ensures Abstract() == Expired(old(Abstract()))
    {
      if mic.pending && Due(now, mic.deadline) {
        mic := mic.(pending := false, queued := false, closing := false);
        Emit(Fault(END_DEVICE_ERROR));
      }
    }

    method RewriteOpen(e: Env)
      modifies this
      ensures Abstract() == Rewritten(old(Abstract()), e)
    {
      if mic.queued {
        Emit(MicOpen(window, e.open));
        if e.open {
          mic := mic.(queued := false);
        }
      }
    }

    /** `rc003_atvv_tick`. */
    method HandleTick(at: u32, e: Env)
      modifies this
      ensures Abstract() == Tick(old(Abstract()), at, e)
    {
      now := at;
      ExpireOpen();
      RewriteOpen(e);
      KeepStream(e);
    }
  }
}
