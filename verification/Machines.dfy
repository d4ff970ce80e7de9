/**
 The transaction machines as objects that their handlers change in place.  A timer slot is only ever
 filled through `Filled`, which demands that it was empty.
 */
module Machines {
  import opened Bits
  import opened Wrappers
  import opened Transactions

  /** A new timer for an empty slot. */
  function Filled(slot: Option<nat>, timeout: nat): Option<nat>
    requires slot.None?
  {
    Some(timeout)
  }

  class Ict {
    var state: State
    var timerA: Option<nat>
    var timerB: Option<nat>
    var timerD: Option<nat>
    var timerM: Option<nat>
    var ack: bool
    ghost var built: bool
    /** What went to the channel, and the responses that went to the transaction user. */
    var sent: seq<Request>
    var told: seq<nat>

    ghost function View(): Client
      reads this
    {
      Client(state, timerA, timerB, timerD, timerM, ack, built, sent, told)
    }

    constructor ()
      ensures View() == NEW_CLIENT
    {
      state := Init;
      timerA, timerB, timerD, timerM := None, None, None, None;
      ack, built := false, false;
      sent, told := [], [];
    }

    /** `belle_sip_transaction_terminate` with `on_ict_terminate`. */
    method Terminate()
      modifies this
      ensures View() == ClientTerminated(old(View()))
    {
      if state != Terminated {
        state := Terminated;
        timerA, timerB, timerD, timerM := None, None, None, None;
        ack := false;
      }
    }

    /** `ict_send_request`. */
    method SendRequest(cfg: Config)
      requires state == Init && ClientSlots(View())
      modifies this
      ensures View() == ClientStep(old(View()), Send, cfg)
    {
      state := Calling;
      if !cfg.reliable {
        timerA := Filled(timerA, cfg.t1);
      }
      timerB := Filled(timerB, 64 * cfg.t1);
      sent := sent + [Invite];
    }

    /** `make_ack`. */
    method MakeAck()
      requires ack ==> built
      modifies this`ack, this`built
      ensures ack && built
    {
      if !ack {
        ack := true;
        built := true;
      }
    }

    /** `ict_on_response`. */
    method OnResponse(code: nat, cfg: Config)
      requires ClientSlots(View())
      modifies this
      ensures View() == ClientStep(old(View()), Response(code), cfg)
    {
      if state == Calling {
        state := Proceeding;
      }
      if state == Proceeding {
        if code >= 300 {
          state := Completed;
          MakeAck();
          sent := sent + [Ack];
          told := told + [code];
          timerD := Filled(timerD, 64 * cfg.t1);
        } else if code >= 200 {
          timerM := Filled(timerM, 64 * cfg.t1);
          state := Accepted;
          told := told + [code];
        } else if code >= 100 {
          told := told + [code];
        }
      } else if state == Accepted {
        if 200 <= code < 300 {
          told := told + [code];
        }
      } else if state == Completed {
        if code >= 300 && ack {
          sent := sent + [Ack];
        }
      }
    }

    /** `ict_on_timer_A`. */
    method OnTimerA(cfg: Config)
      requires timerA.Some?
      modifies this
      ensures View() == ClientStep(old(View()), TimerA, cfg)
    {
      if state == Calling {
        timerA := Some(2 * timerA.value);
        sent := sent + [Invite];
      }
    }

    /** `ict_on_timer_B`: an INVITE that times out is ended. */
    method OnTimerB(cfg: Config)
      requires timerB.Some?
      modifies this
      ensures View() == ClientStep(old(View()), TimerB, cfg)
    {
      if state == Calling {
        Terminate();
      }
    }

    /** `ict_on_timer_D`. */
    method OnTimerD(cfg: Config)
      requires timerD.Some?
      modifies this
      ensures View() == ClientStep(old(View()), TimerD, cfg)
    {
      if state == Completed {
        Terminate();
      }
    }

    /** `ict_on_timer_M`. */
    method OnTimerM(cfg: Config)
      requires timerM.Some?
      modifies this
      ensures View() == ClientStep(old(View()), TimerM, cfg)
    {
      if state == Accepted {
        Terminate();
      }
    }
  }

  class Ist {
    var state: State
    var timerG: Option<nat>
    var timerH: Option<nat>
    var timerI: Option<nat>
    var timerL: Option<nat>
    var last: Option<nat>
    var sent: seq<nat>
    /** ACKs reported to the transaction user. */
    var acks: nat
    ghost var completed: bool
    ghost var accepted: bool

    ghost function View(): Server
      reads this
    {
      Server(state, timerG, timerH, timerI, timerL, last, sent, acks, completed, accepted)
    }

    /** `belle_sip_ist_new`, for a provider that has a channel. */
    constructor (cfg: Config)
      ensures View() == NEW_SERVER
    {
      state := Proceeding;
      timerG, timerH, timerI, timerL := None, None, None, None;
      last, sent, acks := None, [], 0;
      completed, accepted := false, false;
      new;
      var ret := SendNewResponse(100, cfg);
      if ret == 0 {
        last := Some(100);
      }
    }

    /** `ist_on_terminate`. */
    method Terminate()
      modifies this
      ensures View() == ServerTerminated(old(View()))
    {
      if state != Terminated {
        state := Terminated;
        timerG, timerH, timerI, timerL := None, None, None, None;
      }
    }

    /** `ist_send_new_response`. */
    method SendNewResponse(code: nat, cfg: Config) returns (ret: int)
      requires state == Proceeding ==> timerG.None? && timerH.None? && timerL.None?
      modifies this
      ensures ret == if old(state) == Proceeding || (old(state) == Accepted && 200 <= code < 300) then 0 else -1
      ensures View().(last := if ret == 0 then Some(code) else last) == ServerReplied(old(View()), code, cfg)
              && last == old(last)
    {
      ret := -1;
      if state == Proceeding {
        ret := 0;
        sent := sent + [code];
        if 200 <= code < 300 {
          state := Accepted;
          accepted := true;
          timerL := Filled(timerL, 64 * cfg.t1);
        } else if code >= 300 {
          state := Completed;
          completed := true;
          if !cfg.reliable {
            timerG := Filled(timerG, cfg.t1);
          }
          timerH := Filled(timerH, 64 * cfg.t1);
        }
      } else if state == Accepted {
        if 200 <= code < 300 {
          ret := 0;
        }
      }
    }

    /** `belle_sip_server_transaction_send_response`: a response that was taken is the last one. */
    method SendResponse(code: nat, cfg: Config)
      requires ServerSlots(View())
      modifies this
      ensures View() == ServerStep(old(View()), Reply(code), cfg)
    {
      var ret := SendNewResponse(code, cfg);
      if ret == 0 {
        last := Some(code);
      }
    }

    /** `belle_sip_ist_process_ack`; 0 says that the ACK is the user's. */
    method ProcessAck(cfg: Config) returns (ret: int)
      requires ServerSlots(View())
      modifies this
      ensures View() == ServerStep(old(View()), GotAck, cfg) && (ret == 0 <==> old(state) == Accepted)
    {
      ret := -1;
      if state == Completed {
        timerG := None;
        state := Confirmed;
        if !cfg.reliable {
          timerI := Filled(timerI, cfg.t4);
        } else {
          Terminate();
        }
      } else if state == Accepted {
        ret := 0;
        acks := acks + 1;
      }
    }

    /** `ist_on_request_retransmission`. */
    method OnRequestRetransmission(cfg: Config)
      modifies this
      ensures View() == ServerStep(old(View()), GotInvite, cfg)
    {
      if state == Proceeding || state == Completed {
        if last.Some? {
          sent := sent + [last.value];
        }
      }
    }

    /** `ist_on_timer_G`. */
    method OnTimerG(cfg: Config)
      requires timerG.Some?
      modifies this
      ensures View() == ServerStep(old(View()), TimerG, cfg)
    {
      if state == Completed {
        if last.Some? {
          sent := sent + [last.value];
        }
        timerG := Some(Min(2 * timerG.value, cfg.t2));
      }
    }

    /** `ist_on_timer_H`. */
    method OnTimerH(cfg: Config)
      requires timerH.Some?
      modifies this
      ensures View() == ServerStep(old(View()), TimerH, cfg)
    {
      if state == Completed {
        Terminate();
      }
    }

    /** `ist_on_timer_I`. */
    method OnTimerI(cfg: Config)
      requires timerI.Some?
      modifies this
      ensures View() == ServerStep(old(View()), TimerI, cfg)
    {
      Terminate();
    }

    /** `ist_on_timer_L`. */
    method OnTimerL(cfg: Config)
      requires timerL.Some?
      modifies this
      ensures View() == ServerStep(old(View()), TimerL, cfg)
    {
      Terminate();
    }
  }

  class Nict {
    var state: State
    var timerF: Option<nat>
    var timerE: Option<nat>
    var timerK: Option<nat>
    const register: bool
    var sent: nat
    var told: seq<nat>

    ghost function View(): Caller
      reads this
    {
      Caller(state, timerF, timerE, timerK, register, sent, told)
    }

    constructor (register: bool)
      ensures View() == NewCaller(register)
    {
      state := Init;
      timerF, timerE, timerK := None, None, None;
      this.register := register;
      sent, told := 0, [];
    }

    /** `nict_on_terminate`. */
    method Terminate()
      modifies this
      ensures View() == CallerTerminated(old(View()))
    {
      if state != Terminated {
        state := Terminated;
        timerF, timerE, timerK := None, None, None;
      }
    }

    /** `nict_send_request`. */
    method SendRequest(cfg: Config)
      requires state == Init && CallerSlots(View())
      modifies this
      ensures View() == CallerStep(old(View()), Start, cfg)
    {
      state := Trying;
      timerF := Filled(timerF, 64 * cfg.t1);
      if !cfg.reliable {
        timerE := Filled(timerE, cfg.t1);
      }
      sent := sent + 1;
    }

    /** `nict_set_completed`: the slot is empty, so its fatal error is out of reach. */
    method SetCompleted(code: nat, cfg: Config)
      requires timerK.None? && state != Terminated
      modifies this
      ensures View() == CallerCompleted(old(View()), code, cfg)
    {
      state := Completed;
      told := told + [code];
      if !cfg.reliable {
        timerK := Filled(timerK, cfg.t4);
      } else {
        Terminate();
      }
    }

    /** `nict_on_response`. */
    method OnResponse(code: nat, cfg: Config)
      requires CallerSlots(View())
      modifies this
      ensures View() == CallerStep(old(View()), Answer(code), cfg)
    {
      if state == Trying {
        if code < 200 {
          state := Proceeding;
          told := told + [code];
        } else {
          SetCompleted(code, cfg);
        }
      } else if state == Proceeding {
        if code >= 200 {
          SetCompleted(code, cfg);
        }
      }
    }

    /** `nict_on_timer_E`. */
    method OnTimerE(cfg: Config)
      requires timerE.Some?
      modifies this
      ensures View() == CallerStep(old(View()), TimerE, cfg)
    {
      if state == Trying {
        timerE := Some(Min(2 * timerE.value, cfg.t2));
        sent := sent + 1;
      } else if state == Proceeding {
        timerE := Some(cfg.t2);
        sent := sent + 1;
      }
    }

    /** `nict_on_timer_F`. */
    method OnTimerF(cfg: Config)
      requires timerF.Some?
      modifies this
      ensures View() == CallerStep(old(View()), TimerF, cfg)
    {
      if state == Trying || state == Proceeding {
        if !register {
          Terminate();
        }
      }
    }

    /** `nict_on_timer_K`. */
    method OnTimerK(cfg: Config)
      requires timerK.Some?
      modifies this
      ensures View() == CallerStep(old(View()), TimerK, cfg)
    {
      Terminate();
    }
  }

  class Nist {
    var state: State
    var timerJ: Option<nat>
    var last: Option<nat>
    var sent: seq<nat>

    ghost function View(): Callee
      reads this
    {
      Callee(state, timerJ, last, sent)
    }

    constructor ()
      ensures View() == NEW_CALLEE
    {
      state, timerJ, last, sent := Trying, None, None, [];
    }

    /** `nist_on_terminate`. */
    method Terminate()
      modifies this
      ensures View() == CalleeTerminated(old(View()))
    {
      if state != Terminated {
        state := Terminated;
        timerJ := None;
      }
    }

    /** `nist_send_new_response`. */
    method SendNewResponse(code: nat, cfg: Config) returns (ret: int)
      requires CalleeSlots(View())
      modifies this
      ensures ret == (if old(state) == Completed then -1 else 0) && last == old(last)
      ensures View().(last := if ret == 0 then Some(code) else last) == CalleeResponded(old(View()), code, cfg)
    {
      ret := 0;
      if state == Trying && code < 200 {
        state := Proceeding;
        sent := sent + [code];
      } else if state == Trying || state == Proceeding {
        if code >= 200 {
          timerJ := Filled(timerJ, if cfg.reliable then 0 else 64 * cfg.t1);
          state := Completed;
        }
        sent := sent + [code];
      } else if state == Completed {
        ret := -1;
      }
    }

    method SendResponse(code: nat, cfg: Config)
      requires CalleeSlots(View())
      modifies this
      ensures View() == CalleeStep(old(View()), Respond(code), cfg)
    {
      var ret := SendNewResponse(code, cfg);
      if ret == 0 {
        last := Some(code);
      }
    }

    /** `nist_on_request_retransmission`. */
    method OnRequestRetransmission(cfg: Config)
      modifies this
      ensures View() == CalleeStep(old(View()), Again, cfg)
    {
      if state == Proceeding || state == Completed {
        if last.Some? {
          sent := sent + [last.value];
        }
      }
    }

    /** `nist_on_timer_J`. */
    method OnTimerJ(cfg: Config)
      requires timerJ.Some?
      modifies this
      ensures View() == CalleeStep(old(View()), TimerJ, cfg)
    {
      Terminate();
    }
  }
}
