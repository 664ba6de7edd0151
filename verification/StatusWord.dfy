/**
  The status word that `waitpid` fills in, with the tests of `<sys/wait.h>` on Linux, and what the shell reads off it.
  The rest of the model works with `WaitStatus`; here the two are shown to say the same.
 */
module StatusWord {
  import opened JobTable

  function LowBits(word: nat): nat {
    word % 128
  }

  predicate IfExited(word: nat) {
    LowBits(word) == 0
  }

  predicate IfSignaled(word: nat) {
    0 < LowBits(word) < 127
  }

  predicate IfStopped(word: nat) {
    word % 256 == 127
  }

  predicate IfContinued(word: nat) {
    word == 0xFFFF
  }

  /** The exit code of an exit, or the signal of a stop. */
  function HighByte(word: nat): nat {
    word / 256 % 256
  }

  /** What the kernel can report: a code of one byte, a signal number. */
  predicate Reportable(s: WaitStatus) {
    match s
    case Exited(code) => code < 256
    case Signaled(signal) => 0 < signal < 127
    case StoppedBy(signal) => 0 < signal < 256
    case Continued => true
  }

  /** The word the kernel writes; `core` is whether a death by signal left a core file. */
  function Word(s: WaitStatus, core: bool): nat {
    match s
    case Exited(code) => 256 * code
    case Signaled(signal) => signal + if core then 128 else 0
    case StoppedBy(signal) => 256 * signal + 127
    case Continued => 0xFFFF
  }

  /** Exactly one of the four tests holds of a word, and it tells what was reported. */
  lemma {:induction false} TestsTell(s: WaitStatus, core: bool)
    requires Reportable(s)
    ensures var word := Word(s, core);
            && (IfExited(word) <==> s.Exited?) && (IfSignaled(word) <==> s.Signaled?)
            && (IfStopped(word) <==> s.StoppedBy?) && (IfContinued(word) <==> s.Continued?)
            && (s.Exited? ==> HighByte(word) == s.code)
            && (s.Signaled? ==> LowBits(word) == s.signal)
            && (s.StoppedBy? ==> HighByte(word) == s.signal)
  {
    match s
    case Exited(code) => assert (256 * code) % 128 == 0;
    case Signaled(signal) =>
    case StoppedBy(signal) => assert (256 * signal + 127) % 128 == 127;
    case Continued =>
  }

  method DecodeWaitStatus(word: nat) returns (status: nat)
    ensures forall s, core | Reportable(s) && Word(s, core) == word ::
              && (s.Exited? ==> status == s.code)
              && (s.Signaled? ==> status == 128 + s.signal)
              && (s.StoppedBy? ==> status == 128 + s.signal)
              && (s.Continued? ==> status == 0)
              && status == Decode(s)
  {
    forall s, core | Reportable(s) && Word(s, core) == word
      ensures IfExited(word) ==> s.Exited? && HighByte(word) == s.code
      ensures IfSignaled(word) ==> s.Signaled? && LowBits(word) == s.signal
      ensures IfStopped(word) ==> s.StoppedBy? && HighByte(word) == s.signal
      ensures !IfExited(word) && !IfSignaled(word) && !IfStopped(word) ==> s.Continued?
    {
      TestsTell(s, core);
    }
    if IfExited(word) {
      return HighByte(word);
    }
    if IfSignaled(word) {
      return 128 + LowBits(word);
    }
    if IfStopped(word) {
      return 128 + HighByte(word);
    }
    return 0;
  }

  /** The exit code `sandbox` and `trace` hand on: a process that has not ended counts as a failure. */
  method WaitStatusToExitCode(word: nat) returns (code: nat)
    ensures forall s, core | Reportable(s) && Word(s, core) == word ::
              && (s.Exited? ==> code == s.code)
              && (s.Signaled? ==> code == 128 + s.signal)
              && (s.StoppedBy? || s.Continued? ==> code == 1)
  {
    forall s, core | Reportable(s) && Word(s, core) == word
      ensures (IfExited(word) <==> s.Exited?) && (IfSignaled(word) <==> s.Signaled?)
      ensures (s.Exited? ==> HighByte(word) == s.code) && (s.Signaled? ==> LowBits(word) == s.signal)
    {
      TestsTell(s, core);
    }
    if IfExited(word) {
      return HighByte(word);
    }
    if IfSignaled(word) {
      return 128 + LowBits(word);
    }
    return 1;
  }

  /** The state a record takes from the word, by the tests in the order the shell makes them. */
  method StateFrom(word: nat, before: State) returns (state: State)
    ensures forall s, core | Reportable(s) && Word(s, core) == word ::
              && (s.Exited? || s.Signaled? ==> state == Done)
              && (s.StoppedBy? ==> state == Stopped)
              && (s.Continued? ==> state == Running)
              && state == StateAfter(s)
  {
    forall s, core | Reportable(s) && Word(s, core) == word
      ensures (IfExited(word) <==> s.Exited?) && (IfSignaled(word) <==> s.Signaled?)
      ensures (IfStopped(word) <==> s.StoppedBy?) && (IfContinued(word) <==> s.Continued?)
    {
      TestsTell(s, core);
    }
    state := before;
    if IfExited(word) || IfSignaled(word) {
      state := Done;
    } else if IfStopped(word) {
      state := Stopped;
    } else if IfContinued(word) {
      state := Running;
    }
  }

  /** Words of different reports differ, so nothing is lost in them but the core file. */
  lemma {:induction false} WordsDiffer(s: WaitStatus, t: WaitStatus, core: bool, core': bool)
    requires Reportable(s) && Reportable(t) && Word(s, core) == Word(t, core')
    ensures s == t
  {
    TestsTell(s, core);
    TestsTell(t, core');
  }

  /** The status of an exit is also that of a death by signal exactly for the codes from 129 to 254. */
  lemma {:induction false} ExitsMistaken(code: nat)
    requires code < 256
    ensures 128 < code < 255 <==>
            exists signal: nat :: Reportable(Signaled(signal)) && Decode(Signaled(signal)) == Decode(Exited(code))
  {
    if 128 < code < 255 {
      assert Reportable(Signaled(code - 128));
    }
  }
}
