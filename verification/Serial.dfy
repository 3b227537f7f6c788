/** The serial interface driver: the port control block changed by tasks and interrupt
    callbacks, and the semaphore tokens that let tasks and interrupts share its buffers. */
module Serial {
  import opened Ring

  const FC_STOP: char := 19 as char
  const FC_START: char := 17 as char
  const FC_NONE: char := 0 as char
  const CR: char := '\r'
  const LF: char := '\n'

  datatype Ioctl = Ioctl(echo: bool, crlf: bool, fcsnd: bool, fcrcv: bool, fcany: bool)

  /** A port: the contents of its buffers, oldest first, and its flow-control state. */
  datatype Port = Port(
    sndCap: nat, rcvCap: nat, snd: seq<char>, rcv: seq<char>,
    sndStopped: bool, rcvStopped: bool, fc: char, ioctl: Ioctl)

  // ---- the sections of the driver that run with the CPU locked ----------------------------

  /** serial_wri_chr: straight to the device if nothing is before it, or into the send
      buffer.  dev says whether the device takes a character now.  The results are the
      port, whether the buffer is now full, and the data handed to the device. */
  function PutChar(p: Port, c: char, dev: bool): (Port, bool, seq<char>) {
    if p.snd == [] && !p.sndStopped && dev then (p, false, [c])
    else (p.(snd := p.snd + [c]), |p.snd| + 1 == p.sndCap, [])
  }

  /** serial_rea_chr: the port, the character, whether the receive buffer is now empty. */
  function TakeChar(p: Port, dev: bool): (Port, char, bool)
    requires p.rcv != []
  {
    var p1 := p.(rcv := p.rcv[1..]);
    (if p.rcvStopped && |p1.rcv| <= p.rcvCap / 2 then p1.(rcvStopped := false, fc := if dev then p.fc else FC_START)
     else p1,
     p.rcv[0], p1.rcv == [])
  }

  /** sio_irdy_snd: the port, the data handed to the device, whether snd_sem is signalled. */
  function ReadySnd(p: Port): (Port, seq<char>, bool) {
    if p.fc != FC_NONE then (p.(fc := FC_NONE), [], false)
    else if !p.sndStopped && p.snd != [] then (p.(snd := p.snd[1..]), [p.snd[0]], |p.snd| == p.sndCap)
    else (p, [], false)
  }

  datatype Received = Received(port: Port, out: seq<char>, kept: bool, sigSnd: bool, sigRcv: bool)

  /** sio_irdy_rcv on character c. */
  function ReadyRcv(p: Port, c: char, dev: bool): Received {
    if p.ioctl.fcsnd && c == FC_STOP then Received(p.(sndStopped := true), [], false, false, false)
    else if p.sndStopped && (c == FC_START || p.ioctl.fcany) then
      var p1 := p.(sndStopped := false);
      if p.snd != [] && dev then Received(p1.(snd := p.snd[1..]), [p.snd[0]], false, |p.snd| == p.sndCap, false)
      else Received(p1, [], false, false, false)
    else if p.ioctl.fcsnd && c == FC_START then Received(p, [], false, false, false)
    else if |p.rcv| == p.rcvCap then Received(p, [], false, false, false)
    else
      var p1 := p.(rcv := p.rcv + [c]);
      var p2 := if p.ioctl.fcrcv && !p.rcvStopped && |p1.rcv| >= p.rcvCap * 3 / 4
                then p1.(rcvStopped := true, fc := if dev then p.fc else FC_STOP) else p1;
      Received(p2, [], true, false, p.rcv == [])
  }

  // ---- the port control block in place ----------------------------------------------------

  class SerialPort {
    const rcvBuffer: array<char>
    const sndBuffer: array<char>
    var ioctl: Ioctl
    var rcvReadPtr: nat
    var rcvWritePtr: nat
    var rcvCount: nat
    var rcvFcChr: char
    var rcvStopped: bool
    var sndReadPtr: nat
    var sndWritePtr: nat
    var sndCount: nat
    var sndStopped: bool

    ghost predicate Valid()
      reads this
    {
      && rcvBuffer != sndBuffer && rcvBuffer.Length > 0 && sndBuffer.Length > 0
      && rcvReadPtr < rcvBuffer.Length && rcvCount <= rcvBuffer.Length
      && rcvWritePtr == Wrap(rcvReadPtr + rcvCount, rcvBuffer.Length)
      && sndReadPtr < sndBuffer.Length && sndCount <= sndBuffer.Length
      && sndWritePtr == Wrap(sndReadPtr + sndCount, sndBuffer.Length)
    }

    ghost function View(): Port
      requires Valid()
      reads this, rcvBuffer, sndBuffer
    {
      Port(sndBuffer.Length, rcvBuffer.Length, RingItems(sndBuffer[..], sndReadPtr, sndCount),
           RingItems(rcvBuffer[..], rcvReadPtr, rcvCount), sndStopped, rcvStopped, rcvFcChr, ioctl)
    }

    /** The variables as serial_opn_por sets them. */
    constructor (rcvSize: nat, sndSize: nat)
      requires rcvSize > 0 && sndSize > 0
      ensures Valid() && View() == Port(sndSize, rcvSize, [], [], false, false, FC_NONE, Ioctl(true, true, true, true, false))
    {
      rcvBuffer := new char[rcvSize](_ => FC_NONE);
      sndBuffer := new char[sndSize](_ => FC_NONE);
      ioctl := Ioctl(true, true, true, true, false);
      rcvReadPtr, rcvWritePtr, rcvCount, rcvFcChr, rcvStopped := 0, 0, 0, FC_NONE, false;
      sndReadPtr, sndWritePtr, sndCount, sndStopped := 0, 0, 0, false;
    }

    /** INC_PTR. */
    static method IncPtr(ptr: nat, bufsz: nat) returns (r: nat)
      requires ptr < bufsz
      ensures r == Wrap(ptr + 1, bufsz)
    {
      r := ptr + 1;
      if r == bufsz {
        r := 0;
      }
    }

    /** The locked section of serial_wri_chr. */
    method WriChr(c: char, dev: bool) returns (bufferFull: bool, out: seq<char>)
      requires Valid() && sndCount < sndBuffer.Length
      modifies this, sndBuffer
      ensures Valid() && (View(), bufferFull, out) == PutChar(old(View()), c, dev)
    {
      hide RingItems;
      if sndCount == 0 && !sndStopped && dev {
        return false, [c];
      }
      RingPush(sndBuffer[..], sndReadPtr, sndCount, c);
      sndBuffer[sndWritePtr] := c;
      sndWritePtr := IncPtr(sndWritePtr, sndBuffer.Length);
      sndCount := sndCount + 1;
      return sndCount == sndBuffer.Length, [];
    }

    /** The locked section of serial_rea_chr. */
    method ReaChr(dev: bool) returns (c: char, bufferEmpty: bool)
      requires Valid() && rcvCount > 0
      modifies this
      ensures Valid() && (View(), c, bufferEmpty) == TakeChar(old(View()), dev)
    {
      hide RingItems;
      RingPop(rcvBuffer[..], rcvReadPtr, rcvCount);
      FirstItem(rcvBuffer[..], rcvReadPtr, rcvCount);
      c := rcvBuffer[rcvReadPtr];
      rcvReadPtr := IncPtr(rcvReadPtr, rcvBuffer.Length);
      rcvCount := rcvCount - 1;
      bufferEmpty := rcvCount == 0;
      if rcvStopped && rcvCount <= rcvBuffer.Length / 2 {
        if !dev {
          rcvFcChr := FC_START;
        }
        rcvStopped := false;
      }
    }

    /** sio_irdy_snd; sig says that the callback calls isig_sem on snd_sem. */
    method IrdySnd() returns (out: seq<char>, sig: bool)
      requires Valid()
      modifies this
      ensures Valid() && (View(), out, sig) == ReadySnd(old(View()))
    {
      hide RingItems;
      out, sig := [], false;
      if rcvFcChr != FC_NONE {
        rcvFcChr := FC_NONE;
      } else if !sndStopped && sndCount > 0 {
        out, sig := PopSnd();
      }
    }

    /** The oldest character of the send buffer goes to the device. */
    method PopSnd() returns (out: seq<char>, sig: bool)
      requires Valid() && sndCount > 0
      modifies this`sndReadPtr, this`sndCount
      ensures Valid() && View() == old(View()).(snd := old(View()).snd[1..])
      ensures out == [old(View()).snd[0]] && sig == (|old(View()).snd| == sndBuffer.Length)
    {
      hide RingItems;
      RingPop(sndBuffer[..], sndReadPtr, sndCount);
      FirstItem(sndBuffer[..], sndReadPtr, sndCount);
      out := [sndBuffer[sndReadPtr]];
      sndReadPtr := IncPtr(sndReadPtr, sndBuffer.Length);
      sig := sndCount == sndBuffer.Length;
      sndCount := sndCount - 1;
    }

    /** sio_irdy_rcv. */
    method IrdyRcv(c: char, dev: bool) returns (out: seq<char>, kept: bool, sigSnd: bool, sigRcv: bool)
      requires Valid()
      modifies this, rcvBuffer
      ensures Valid() && Received(View(), out, kept, sigSnd, sigRcv) == ReadyRcv(old(View()), c, dev)
    {
      hide RingItems;
      out, kept, sigSnd, sigRcv := [], false, false, false;
      if ioctl.fcsnd && c == FC_STOP {
        sndStopped := true;
      } else if sndStopped && (c == FC_START || ioctl.fcany) {
        sndStopped := false;
        if sndCount > 0 {
          if dev {
            out, sigSnd := PopSnd();
          }
        }
      } else if ioctl.fcsnd && c == FC_START {
      } else if rcvCount == rcvBuffer.Length {
      } else {
        sigRcv := PushRcv(c);
        kept := true;
        if ioctl.fcrcv && !rcvStopped && rcvCount >= rcvBuffer.Length * 3 / 4 {
          if !dev {
            rcvFcChr := FC_STOP;
          }
          rcvStopped := true;
        }
      }
    }

    method PushRcv(c: char) returns (sig: bool)
      requires Valid() && rcvCount < rcvBuffer.Length
      modifies this`rcvWritePtr, this`rcvCount, rcvBuffer
      ensures Valid() && View() == old(View()).(rcv := old(View()).rcv + [c])
      ensures sig == (old(View()).rcv == []) && rcvCount == old(rcvCount) + 1
    {
      hide RingItems;
      RingPush(rcvBuffer[..], rcvReadPtr, rcvCount, c);
      rcvBuffer[rcvWritePtr] := c;
      rcvWritePtr := IncPtr(rcvWritePtr, rcvBuffer.Length);
      sig := rcvCount == 0;
      rcvCount := rcvCount + 1;
    }
  }

  lemma FirstItem<T>(mb: seq<T>, head: nat, count: nat)
    requires 0 < count <= |mb| && head < |mb|
    ensures RingItems(mb, head, count)[0] == mb[head]
  {
    assert RingItems(mb, head, count)[0] == mb[Wrap(head + 0, |mb|)];
  }
}
