/** Instruction budgets: counting by performance counter, then by single-stepping (kern/proc.c, kern/trap.c, dev/pmc.c). */
module Budget {

  /* ---------- the counter register ---------- */

  /** What wrmsr(PerfCtr0, -maxcnt) leaves in a counter of size values. */
  function Initial(size: nat, maxcnt: nat): (c: nat)
    requires size > 0
    ensures c < size
  {
    (0 - maxcnt) % size
  }

  /** The register after n more instructions. */
  function Advanced(size: nat, ctr: nat, n: nat): (c: nat)
    requires size > 0
    ensures c < size
  {
    (ctr + n) % size
  }

  /** pmc_amdget */
  function PmcGet(size: nat, maxcnt: nat, ctr: nat): int
    requires size > 0 && ctr < size
  {
    var init := Initial(size, maxcnt);
    (if ctr < init then ctr + size else ctr) - init
  }

  lemma {:induction false} ModAdd(size: nat, a: nat)
    requires size > 0 && a < 2 * size
    ensures a % size == if a < size then a else a - size
  {
    if a >= size {
      var q, r := a / size, a % size;
      assert a == size * q + r;
      if q >= 2 { AtLeast(size, q); }
      assert q == 1 ==> size * q == size;
      assert q == 0 ==> size * q == 0;
    }
  }

  lemma AtLeast(m: nat, q: nat)
    requires q >= 2
    ensures m * q >= 2 * m
  {
  }

  /** The number read back is the number of instructions executed exactly as long as the counter has not come
      round to where it started. */
  lemma PmcExact(size: nat, maxcnt: nat, n: nat)
    requires size > 0
    ensures PmcGet(size, maxcnt, Advanced(size, Initial(size, maxcnt), n)) == n <==> n < size
  {
    var init := Initial(size, maxcnt);
    if n < size {
      ModAdd(size, init + n);
    }
  }

  /* ---------- counting ---------- */

  /** int32_t pmax = imax - icnt - pmc_safety, computed in 32-bit unsigned arithmetic. */
  function Pmax(icnt: nat, imax: nat, safety: nat): int
  {
    var u := (imax - icnt - safety) % 0x1_0000_0000;
    if u < 0x8000_0000 then u else u - 0x1_0000_0000
  }

  lemma PmaxIs(icnt: nat, imax: nat, safety: nat)
    requires icnt < imax < 0x8000_0000 && safety <= 0x8000_0000
    ensures Pmax(icnt, imax, safety) == imax - icnt - safety
  {
  }

  /** In user mode with the counter armed, in user mode stepping, inside a system call either way, or saved. */
  datatype Mode = Counting | Stepping | CountingCall | SteppingCall | Saved

  class Counted {
    var icnt: nat           // sv.icnt
    const imax: nat         // sv.imax
    var pmcmax: nat
    var tf: bool            // FL_TF in the trap frame
    var ctr: nat            // the counter register
    const pmc: bool         // the processor has a usable counter
    const size: nat         // pmc_ctrmask + 1
    const safety: nat       // pmc_safety

    ghost var mode: Mode
    ghost var since: nat    // instructions the counter has seen since it was armed
    ghost var retired: nat  // instructions the process has completed
    ghost var missed: nat   // system calls that completed while stepping without stopping the process

    /** The count is right; and the counter leaves only what may have to be stepped. */
    ghost predicate Valid()
      reads this
    {
      Counts() && Near()
    }

    /** A process that is stepped although it could be counted has no more than the safety margin to go, as the T_DEBUG
        case of trap asserts. */
    ghost predicate Near()
      reads this
    {
      (mode.Stepping? || mode.SteppingCall?) && pmc ==> imax - icnt <= safety
    }

    /** What icnt, the counter and the instructions completed have to do with each other. */
    ghost predicate Counts()
      reads this
    {
      && imax < 0x8000_0000 && safety <= 0x8000_0000 && icnt <= imax && size > imax + safety
      && (mode.Counting? || mode.CountingCall? ==>
            && pmc && !tf && pmcmax > 0 && icnt + pmcmax + safety == imax
            && since <= pmcmax + safety && ctr == Advanced(size, Initial(size, pmcmax), since))
      && (mode.Counting? ==> icnt + since + missed == retired)
      && (mode.CountingCall? ==> since > 0 && icnt + since + missed == retired + 1)
      && (mode.Stepping? || mode.SteppingCall? ==>
            tf && pmcmax == 0 && icnt < imax && icnt + missed == retired)
      && (mode.Saved? ==> !tf && pmcmax == 0 && icnt + missed == retired)
    }

    constructor (imax: nat, pmc: bool, size: nat, safety: nat)
      requires imax < 0x8000_0000 && safety <= 0x8000_0000 && size > imax + safety
      ensures Valid() && mode == Saved && icnt == 0 && retired == 0 && missed == 0
      ensures this.imax == imax && this.pmc == pmc && this.size == size && this.safety == safety
    {
      icnt, pmcmax, tf, ctr := 0, 0, false, 0;
      this.imax, this.pmc, this.size, this.safety := imax, pmc, size, safety;
      mode, since, retired, missed := Saved, 0, 0, 0;
    }

    /** pmc_amdset */
    method PmcSet(maxcnt: nat)
      requires size > 0
      modifies this`ctr, this`since
      ensures ctr == Initial(size, maxcnt) && since == 0
    {
      ctr := Initial(size, maxcnt);
      since := 0;
    }

    /** The counting part of proc_run; a process whose budget is used up does not run. */
    method ProcRun() returns (expired: bool)
      requires Valid() && mode == Saved
      modifies this`pmcmax, this`tf, this`ctr, this`since, this`mode
      ensures Valid() && expired == (icnt == imax)
      ensures mode == if expired then Saved else if pmc && imax - icnt > safety then Counting else Stepping
      ensures mode == Counting ==> since == 0 && pmcmax == imax - icnt - safety
    {
      if icnt >= imax {
        return true;
      }
      PmaxIs(icnt, imax, safety);
      var pmax := Pmax(icnt, imax, safety);
      if pmc && pmax > 0 {
        PmcSet(pmax);
        AdvanceNone(size, Initial(size, pmax));
        pmcmax := pmax;
        mode := Counting;
      } else {
        tf := true;
        mode := Stepping;
      }
      return false;
    }

    static lemma AdvanceNone(size: nat, c: nat)
      requires size > 0 && c < size
      ensures Advanced(size, c, 0) == c
    {
      ModAdd(size, c);
    }

    static lemma AdvanceOne(size: nat, c: nat, n: nat)
      requires size > 0 && c < size && n < size
      ensures Advanced(size, Advanced(size, c, n), 1) == Advanced(size, c, n + 1)
    {
      ModAdd(size, c + n);
      ModAdd(size, Advanced(size, c, n) + 1);
      if c + n + 1 < 2 * size { ModAdd(size, c + n + 1); }
    }

    /** One more instruction is counted; the overflow interrupt comes at most safety instructions late. */
    method Tick()
      requires size > imax + safety && since < pmcmax + safety && pmcmax + safety <= imax
      requires ctr == Advanced(size, Initial(size, pmcmax), since)
      modifies this`ctr, this`since
      ensures since == old(since) + 1 && ctr == Advanced(size, Initial(size, pmcmax), since)
    {
      AdvanceOne(size, Initial(size, pmcmax), since);
      ctr := Advanced(size, ctr, 1);
      since := since + 1;
    }

    /** The processor completes an instruction other than INT while counting. */
    method Retire()
      requires Valid() && mode == Counting && since < pmcmax + safety
      modifies this`ctr, this`since, this`retired
      ensures Valid() && retired == old(retired) + 1
    {
      Tick();
      retired := retired + 1;
    }

    /** The processor executes an INT instruction. */
    method Int()
      requires Counts() && (mode == Counting || mode == Stepping) && (mode == Counting ==> since < pmcmax + safety)
      modifies this`ctr, this`since, this`mode
      ensures Counts() && (old(Valid()) ==> Valid()) && mode == if old(mode) == Counting then CountingCall else SteppingCall
    {
      if !tf {
        Tick();
      }
      mode := if mode == Counting then CountingCall else SteppingCall;
    }

    /** trap_return from a system call that has completed: nothing is counted for it while stepping. */
    method CallDone()
      requires Counts() && (mode == CountingCall || mode == SteppingCall)
      modifies this`mode, this`retired, this`missed
      ensures Counts() && (old(Valid()) ==> Valid()) && retired == old(retired) + 1
      ensures missed == old(missed) + (if old(mode) == SteppingCall then 1 else 0)
      ensures mode == if old(mode) == CountingCall then Counting else Stepping
    {
      retired := retired + 1;
      if mode == SteppingCall {
        missed := missed + 1;
        mode := Stepping;
      } else {
        mode := Counting;
      }
    }

    /** proc_save with entry -1 (a trap or interrupt), 0 (a system call is aborted) or 1 (it stops the process). */
    method ProcSave(entry: int)
      requires Counts() && -1 <= entry <= 1 && mode != Saved
      requires entry == -1 <==> mode == Counting || mode == Stepping
      modifies this`icnt, this`pmcmax, this`tf, this`mode, this`retired
      ensures Valid() && mode == Saved
      ensures retired == old(retired) + (if entry == 1 then 1 else 0)
      ensures icnt + missed == retired && icnt <= imax
    {
      retired := if entry == 1 then retired + 1 else retired;
      if tf {
        if entry > 0 {
          icnt := icnt + 1;
        }
        tf := false;
      } else if pmcmax > 0 {
        PmcExact(size, pmcmax, since);
        var n := PmcGet(size, pmcmax, ctr);
        icnt := icnt + n;
        if entry == 0 {
          icnt := icnt - 1;
        }
        pmcmax := 0;
        assert icnt <= imax;
      }
      mode := Saved;
    }

    /** The T_DEBUG case of trap: one instruction was stepped.  Not ok if the assertion about the safety margin fails; else
        expired says whether T_ICNT is raised. */
    method Debug() returns (ok: bool, expired: bool)
      requires Counts() && mode == Stepping
      modifies this`icnt, this`tf, this`mode, this`retired, this`pmcmax
      ensures ok == (!pmc || imax - old(icnt) <= safety) && ok == old(Valid())
      ensures !ok ==> icnt == old(icnt) && mode == old(mode)
      ensures ok ==> Valid() && retired == old(retired) + 1 && expired == (icnt == imax) && icnt == old(icnt) + 1
      ensures ok ==> mode == if expired then Saved else Stepping
    {
      if pmc && imax - icnt > safety {
        return false, false;
      }
      icnt := icnt + 1;
      retired := retired + 1;
      if icnt < imax {
        return true, false;
      }
      mode := Saved;
      tf := false;          // proc_ret(tf, -1) saves the process
      return true, true;
    }

    /** The T_PERFCTR case of trap, which may come at any time.  The count stays right; the margin is kept exactly if the
        counter has reached its limit, or is not armed.  An interrupt left over from an earlier time, that comes when the
        counter has been armed again, breaks it: see LateInterrupt. */
    method PerfCtr() returns (expired: bool)
      requires Counts() && (mode == Counting || mode == Stepping || mode == Saved)
      modifies this`icnt, this`tf, this`mode, this`pmcmax
      ensures Counts() && (old(Valid()) ==> (Valid() <==> old(pmcmax) == 0 || old(since) >= old(pmcmax)))
      ensures old(mode) == Counting ==> icnt == old(icnt) + old(since) && icnt + missed == retired
      ensures old(mode) == Counting ==> expired == (icnt == imax) && mode == if expired then Saved else Stepping
      ensures old(mode) != Counting ==> !expired && mode == old(mode) && icnt == old(icnt) && tf == old(tf)
    {
      if pmcmax == 0 {
        return false;
      }
      PmcExact(size, pmcmax, since);
      var ninsn := PmcGet(size, pmcmax, ctr);
      icnt := icnt + ninsn;
      pmcmax := 0;
      assert icnt <= imax;
      if icnt < imax {
        tf := true;
        mode := Stepping;
        return false;
      }
      mode := Saved;
      return true;
    }

    /** An overflow interrupt that arrives just after the process has been started again: the single step that follows fails
        the assertion, which stops the kernel. */
    static method LateInterrupt() returns (ok: bool)
      ensures !ok
    {
      var p := new Counted(1000, true, 4096, 100);
      var expired := p.ProcRun();
      expired := p.PerfCtr();
      ok, expired := p.Debug();
    }

    /** A system call that completes while its process is stepped: the process has completed an instruction more than were
        counted. */
    static method MissedCall() returns (p: Counted)
      ensures p.Valid() && p.mode == Saved && p.missed == 1 && p.retired == p.icnt + 1
    {
      p := new Counted(10, false, 4096, 0);
      var expired := p.ProcRun();
      p.Int();
      p.CallDone();
      p.ProcSave(-1);
    }

    /** Whenever the process is not running, its count is the number of instructions it has completed exactly if no
        system call completed while it was being stepped; and a used-up budget means imax counted instructions. */
    lemma CountIsExact()
      requires Valid() && mode == Saved
      ensures icnt == retired <==> missed == 0
      ensures icnt <= imax && retired - missed <= imax
      ensures icnt == imax <==> retired == imax + missed
    {
    }
  }
}
