/** The register protocol on the wire: one register access is one
    transaction of three bytes (control, register, data) bracketed by
    chip-select low and chip-select high. */
module Protocol {
  import opened Hal

  datatype Option<T> = None | Some(value: T)

  /** The three bytes of one transaction as sent by the driver. */
  datatype Txn = Txn(control: bv8, register: bv8, data: bv8)
  {
    /** The control byte's low bit selects a read. */
    predicate IsRead()
    {
      control & 1 == 1
    }
  }

  /** The events of one transaction on the wire. */
  function Frame(t: Txn): seq<Event>
  {
    [CsLow, Xfer(t.control), Xfer(t.register), Xfer(t.data), CsHigh]
  }

  /** The events of a sequence of transactions, in order. */
  function Frames(ts: seq<Txn>): seq<Event>
  {
    if ts == [] then [] else Frames(ts[..|ts| - 1]) + Frame(ts[|ts| - 1])
  }

  /** Reads an event log back as transactions; `None` when some exchange is
      not exactly chip-select low, three bytes, chip-select high. */
  function Parse(log: seq<Event>): Option<seq<Txn>>
  {
    if log == [] then Some([])
    else if |log| >= 5 && log[0] == CsLow && log[1].Xfer? && log[2].Xfer? && log[3].Xfer? && log[4] == CsHigh then
      match Parse(log[5..])
      case None => None
      case Some(rest) => Some([Txn(log[1].sent, log[2].sent, log[3].sent)] + rest)
    else None
  }

  /** The device's response to one transaction: a write stores its data byte,
      a read leaves every register as it was. */
  function Apply(regs: RegFile, t: Txn): RegFile
  {
    if t.IsRead() then regs else regs[t.register as int := t.data]
  }

  /** The register file after the device has seen a sequence of transactions. */
  function Replay(regs: RegFile, ts: seq<Txn>): RegFile
  {
    if ts == [] then regs else Apply(Replay(regs, ts[..|ts| - 1]), ts[|ts| - 1])
  }

  /** A single transaction: its framing and its effect. */
  lemma Single(regs: RegFile, log: seq<Event>, t: Txn)
    ensures log + Frame(t) == log + Frames([t])
    ensures Replay(regs, [t]) == Apply(regs, t)
  {
    assert [t][..0] == [];
  }

  /** Two transactions: their framing and their effect, one after the other. */
  lemma Pair(regs: RegFile, log: seq<Event>, a: Txn, b: Txn)
    ensures log + Frame(a) + Frame(b) == log + Frames([a, b])
    ensures Replay(regs, [a, b]) == Apply(Apply(regs, a), b)
  {
    Single(regs, log, a);
    Extend(regs, log, [a], b);
    assert [a] + [b] == [a, b];
  }

  /** Four transactions: their framing and their effect, one after the other. */
  lemma Quad(regs: RegFile, log: seq<Event>, a: Txn, b: Txn, c: Txn, d: Txn)
    ensures log + Frame(a) + Frame(b) + Frame(c) + Frame(d) == log + Frames([a, b, c, d])
    ensures Replay(regs, [a, b, c, d]) == Apply(Apply(Apply(Apply(regs, a), b), c), d)
  {
    Pair(regs, log, a, b);
    Extend(regs, log, [a, b], c);
    assert [a, b] + [c] == [a, b, c];
    Extend(regs, log, [a, b, c], d);
    assert [a, b, c] + [d] == [a, b, c, d];
  }

  /** Extending a sequence of transactions by one adds its frame to the log
      and its effect to the register file. */
  lemma Extend(regs: RegFile, log: seq<Event>, done: seq<Txn>, t: Txn)
    ensures Frames(done + [t]) == Frames(done) + Frame(t)
    ensures log + Frames(done) + Frame(t) == log + Frames(done + [t])
    ensures Replay(regs, done + [t]) == Apply(Replay(regs, done), t)
  {
    assert (done + [t])[..|done|] == done;
  }

  lemma {:induction false} FramesAppend(a: seq<Txn>, b: seq<Txn>)
    ensures Frames(a + b) == Frames(a) + Frames(b)
    decreases |b|
  {
    if b == [] {
      assert a + b == a;
    } else {
      var init := b[..|b| - 1];
      assert (a + b)[..|a + b| - 1] == a + init;
      assert (a + b)[|a + b| - 1] == b[|b| - 1];
      FramesAppend(a, init);
    }
  }

  /** Every sequence of transactions the driver frames reads back as itself. */
  lemma {:induction false} ParseFrames(ts: seq<Txn>)
    ensures Parse(Frames(ts)) == Some(ts)
    decreases |ts|
  {
    if ts != [] {
      var t, rest := ts[0], ts[1..];
      assert ts == [t] + rest;
      FramesAppend([t], rest);
      assert Frames([t]) == Frame(t) by {
        assert [t][..0] == [];
      }
      var log := Frames(ts);
      assert log[5..] == Frames(rest);
      ParseFrames(rest);
    }
  }

  /** A log that reads back as transactions is exactly their framing. */
  lemma {:induction false} ParseSound(log: seq<Event>, ts: seq<Txn>)
    requires Parse(log) == Some(ts)
    ensures Frames(ts) == log
    decreases |log|
  {
    if log != [] {
      var rest := ts[1..];
      ParseSound(log[5..], rest);
      assert ts == [ts[0]] + rest;
      FramesAppend([ts[0]], rest);
      assert Frames([ts[0]]) == Frame(ts[0]) by {
        assert [ts[0]][..0] == [];
      }
      assert log == log[..5] + log[5..];
    }
  }

  lemma {:induction false} ReplayAppend(regs: RegFile, a: seq<Txn>, b: seq<Txn>)
    ensures Replay(regs, a + b) == Replay(Replay(regs, a), b)
    decreases |b|
  {
    if b == [] {
      assert a + b == a;
    } else {
      var init := b[..|b| - 1];
      assert (a + b)[..|a + b| - 1] == a + init;
      assert (a + b)[|a + b| - 1] == b[|b| - 1];
      ReplayAppend(regs, a, init);
    }
  }

  /** Reads never change the register file. */
  lemma {:induction false} ReplayReads(regs: RegFile, ts: seq<Txn>)
    requires forall i :: 0 <= i < |ts| ==> ts[i].IsRead()
    ensures Replay(regs, ts) == regs
    decreases |ts|
  {
    if ts != [] {
      ReplayReads(regs, ts[..|ts| - 1]);
    }
  }
}
