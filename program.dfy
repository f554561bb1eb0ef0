/** The register-program executor (gc2607_write_array) as a function: the
    events a walk over a register table issues and the value it returns.
    The driver's loop is proved against `Walk`; the lemmas here state what
    a walk does in terms of the table alone. */
module Program {
  import opened Registers
  import opened Hardware

  /** A table the executor may be given: some entry carries the end marker. */
  predicate Terminated(regs: seq<RegVal>)
  {
    exists j :: 0 <= j < |regs| && regs[j].addr == REG_END
  }

  /** The first end marker at or after `i`. */
  function FindEnd(regs: seq<RegVal>, i: nat): (e: nat)
    requires i <= |regs|
    requires exists j :: i <= j < |regs| && regs[j].addr == REG_END
    ensures i <= e < |regs| && regs[e].addr == REG_END
    ensures forall j :: i <= j < e ==> regs[j].addr != REG_END
    decreases |regs| - i
  {
    if regs[i].addr == REG_END then i else FindEnd(regs, i + 1)
  }

  /** The index of the entry that ends the table. */
  function FirstEnd(regs: seq<RegVal>): (e: nat)
    requires Terminated(regs)
    ensures e < |regs| && regs[e].addr == REG_END
    ensures forall j :: 0 <= j < e ==> regs[j].addr != REG_END
  {
    FindEnd(regs, 0)
  }

  /** The one event an entry other than the end marker causes: a sleep of
      `val` milliseconds for a delay entry, else the three-byte write. */
  function EntryEvent(e: RegVal): Event
  {
    if e.addr == REG_DELAY then Msleep(e.val as nat)
    else I2c(WriteTransfer(e.addr, e.val))
  }

  /** The events of a run of entries, in table order. */
  function Events(s: seq<RegVal>): seq<Event>
  {
    seq(|s|, i requires 0 <= i < |s| => EntryEvent(s[i]))
  }

  /** Entry `j` is a register write and the bus rejects it. Every entry
      before the end marker causes exactly one event, so when entry 0's
      event lands at trace position `base`, entry `j`'s lands at `base + j`. */
  predicate WriteFails(regs: seq<RegVal>, j: nat, base: nat, status: nat -> int)
    requires j < |regs|
  {
    regs[j].addr != REG_DELAY && status(base + j) < 0
  }

  /** The walk from entry `i` on: stop at the end marker with 0, sleep on a
      delay entry, write any other entry and stop with the bus's error
      number the first time a write fails. On a terminated table the walk
      reaches the end marker before the end of the sequence; the empty run
      at `i == |regs|` only closes the definition. */
  function Walk(regs: seq<RegVal>, i: nat, base: nat, status: nat -> int): (r: Run)
    requires i <= |regs|
    ensures r.ret <= 0
    ensures |r.events| <= |regs| - i
    decreases |regs| - i
  {
    if i == |regs| || regs[i].addr == REG_END then Run([], 0)
    else if regs[i].addr == REG_DELAY then
      var rest := Walk(regs, i + 1, base, status);
      Run([EntryEvent(regs[i])] + rest.events, rest.ret)
    else if status(base + i) < 0 then
      Run([EntryEvent(regs[i])], status(base + i))
    else
      var rest := Walk(regs, i + 1, base, status);
      Run([EntryEvent(regs[i])] + rest.events, rest.ret)
  }

  /** The events of the entries up to and including `i`. */
  lemma EventsSnoc(regs: seq<RegVal>, i: nat)
    requires i < |regs|
    ensures Events(regs[..i + 1]) == Events(regs[..i]) + [EntryEvent(regs[i])]
  {
  }

  /** The events of entries `i..k` followed by those of `k..n`. */
  lemma EventsSplit(s: seq<RegVal>, i: nat, k: nat, n: nat)
    requires i <= k <= n <= |s|
    ensures Events(s[i..n]) == Events(s[i..k]) + Events(s[k..n])
  {
  }

  /** When no write before the end marker fails, the walk issues one
      event per entry up to the end marker, in table order, and returns 0. */
  lemma {:induction false} WalkCompletes(regs: seq<RegVal>, i: nat, base: nat, status: nat -> int)
    requires Terminated(regs) && i <= FirstEnd(regs)
    requires forall j :: i <= j < FirstEnd(regs) ==> !WriteFails(regs, j, base, status)
    ensures Walk(regs, i, base, status) == Run(Events(regs[i..FirstEnd(regs)]), 0)
    decreases FirstEnd(regs) - i
  {
    var e := FirstEnd(regs);
    if i < e {
      assert !WriteFails(regs, i, base, status);
      WalkCompletes(regs, i + 1, base, status);
      EventsSplit(regs, i, i + 1, e);
      assert Events(regs[i..i + 1]) == [EntryEvent(regs[i])];
    }
  }

  /** When the write of entry `k` is the first to fail, the walk has issued
      exactly the events of entries `i..k`, entry `k` included and nothing
      after it, and returns that write's error number. */
  lemma {:induction false} WalkStopsAtFault(regs: seq<RegVal>, i: nat, k: nat, base: nat, status: nat -> int)
    requires Terminated(regs) && i <= k < FirstEnd(regs)
    requires WriteFails(regs, k, base, status)
    requires forall j :: i <= j < k ==> !WriteFails(regs, j, base, status)
    ensures Walk(regs, i, base, status) == Run(Events(regs[i..k + 1]), status(base + k))
    decreases k - i
  {
    if i < k {
      assert !WriteFails(regs, i, base, status);
      WalkStopsAtFault(regs, i + 1, k, base, status);
      EventsSplit(regs, i, i + 1, k + 1);
      assert Events(regs[i..i + 1]) == [EntryEvent(regs[i])];
    }
  }

  /** Some write before the end marker fails exactly when the walk
      returns an error. */
  lemma {:induction false} WalkReportsFault(regs: seq<RegVal>, i: nat, base: nat, status: nat -> int)
    requires Terminated(regs) && i <= FirstEnd(regs)
    ensures Walk(regs, i, base, status).ret < 0
        <==> exists j :: i <= j < FirstEnd(regs) && WriteFails(regs, j, base, status)
    decreases FirstEnd(regs) - i
  {
    if i < FirstEnd(regs) {
      WalkReportsFault(regs, i + 1, base, status);
      if WriteFails(regs, i, base, status) {
        assert exists j :: i <= j < FirstEnd(regs) && WriteFails(regs, j, base, status);
      }
    }
  }

  /** Of the writes before the end marker that fail, there is a first one. */
  lemma {:induction false} LeastFault(regs: seq<RegVal>, i: nat, base: nat, status: nat -> int) returns (k: nat)
    requires Terminated(regs) && i <= FirstEnd(regs)
    requires exists j :: i <= j < FirstEnd(regs) && WriteFails(regs, j, base, status)
    ensures i <= k < FirstEnd(regs) && WriteFails(regs, k, base, status)
    ensures forall j :: i <= j < k ==> !WriteFails(regs, j, base, status)
    decreases FirstEnd(regs) - i
  {
    if WriteFails(regs, i, base, status) {
      k := i;
    } else {
      k := LeastFault(regs, i + 1, base, status);
    }
  }

  /** Everything a walk from the start of a table can do: either no write
      fails and it issues every entry's event up to the end marker and
      returns 0, or it issues the events of the entries up to and including
      the first failing write and returns that write's error. */
  lemma WalkOutcome(regs: seq<RegVal>, base: nat, status: nat -> int)
    requires Terminated(regs)
    ensures var w := Walk(regs, 0, base, status);
      (w.ret == 0 ==> w.events == Events(regs[..FirstEnd(regs)])) &&
      (w.ret == 0 <==> forall j :: 0 <= j < FirstEnd(regs) ==> !WriteFails(regs, j, base, status)) &&
      (w.ret != 0 ==> exists k :: 0 <= k < FirstEnd(regs) && WriteFails(regs, k, base, status) &&
                        (forall j :: 0 <= j < k ==> !WriteFails(regs, j, base, status)) &&
                        w == Run(Events(regs[..k + 1]), status(base + k)))
  {
    WalkReportsFault(regs, 0, base, status);
    if forall j :: 0 <= j < FirstEnd(regs) ==> !WriteFails(regs, j, base, status) {
      WalkCompletes(regs, 0, base, status);
      assert regs[0..FirstEnd(regs)] == regs[..FirstEnd(regs)];
    } else {
      var k := LeastFault(regs, 0, base, status);
      WalkStopsAtFault(regs, 0, k, base, status);
      assert regs[0..k + 1] == regs[..k + 1];
    }
  }

  /** A walk issues only register writes and sleeps: it touches no
      regulator, clock or GPIO line. */
  lemma {:induction false} WalkInert(regs: seq<RegVal>, i: nat, base: nat, status: nat -> int)
    requires i <= |regs|
    ensures forall k :: 0 <= k < |Walk(regs, i, base, status).events| ==>
      Inert(Walk(regs, i, base, status).events[k])
    decreases |regs| - i
  {
    if i < |regs| && regs[i].addr != REG_END {
      WalkInert(regs, i + 1, base, status);
    }
  }
}
