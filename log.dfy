/**
 * The arithmetic of the page's activity log (script.js:455-480): every entry
 * is inserted in front of the others and the container is then trimmed from
 * the back to at most 30 entries.
 */
module Log {

  /** The `maxLogs` bound of addLog. */
  const MaxLogs: nat := 30

  /** What the trimming loop leaves of a newest-first list: its first MaxLogs entries. */
  function Capped<T>(s: seq<T>): (r: seq<T>)
    ensures |r| <= MaxLogs
  {
    if |s| <= MaxLogs then s else s[..MaxLogs]
  }

  /** The trimming keeps a prefix: all of a short list, the first MaxLogs entries of a long one. */
  lemma CappedPrefix<T>(s: seq<T>)
    ensures |Capped(s)| == if |s| <= MaxLogs then |s| else MaxLogs
    ensures Capped(s) == s[..|Capped(s)|]
  {
  }

  function Reversed<T>(s: seq<T>): (r: seq<T>)
    ensures |r| == |s|
  {
    if s == [] then [] else Reversed(s[1..]) + [s[0]]
  }

  /**
   * The log after the entries es were added, oldest first: they come newest
   * first in front of the entries that were there, cut to the first MaxLogs.
   */
  function Logged<T>(log: seq<T>, es: seq<T>): seq<T>
  {
    Capped(Reversed(es) + log)
  }

  /** The same log, as the page builds it: the entries given to addLog one call at a time. */
  function AddedInTurn<T>(log: seq<T>, es: seq<T>): seq<T>
    decreases |es|
  {
    if es == [] then log else Capped([es[|es| - 1]] + AddedInTurn(log, es[..|es| - 1]))
  }

  /** The last entry added is the first one shown. */
  lemma {:induction false} ReversedLast<T>(s: seq<T>)
    requires s != []
    ensures Reversed(s)[0] == s[|s| - 1]
  {
    if |s| > 1 {
      ReversedLast(s[1..]);
    }
  }

  /** Whatever was added, the newest entry of the batch heads the log, which then holds at most MaxLogs entries. */
  lemma LoggedNewestFirst<T>(log: seq<T>, es: seq<T>)
    requires es != []
    ensures Logged(log, es) != [] && Logged(log, es)[0] == es[|es| - 1]
    ensures |Logged(log, es)| <= MaxLogs
  {
    ReversedLast(es);
  }

  lemma {:induction false} ReversedAppend<T>(a: seq<T>, b: seq<T>)
    ensures Reversed(a + b) == Reversed(b) + Reversed(a)
  {
    if a == [] {
      assert a + b == b;
    } else {
      ReversedAppend(a[1..], b);
      assert (a + b)[1..] == a[1..] + b;
    }
  }

  /** Trimming an already trimmed tail changes nothing about the first MaxLogs entries. */
  lemma CappedAbsorbs<T>(x: seq<T>, y: seq<T>)
    ensures Capped(x + Capped(y)) == Capped(x + y)
  {
    if |y| > MaxLogs {
      var l, r := Capped(x + Capped(y)), Capped(x + y);
      assert |l| == |r| == MaxLogs;
      forall i | 0 <= i < MaxLogs ensures l[i] == r[i] {
        if i >= |x| {
          assert l[i] == y[i - |x|];
        }
      }
    }
  }

  /** Adding the entries one call at a time gives the closed form above, whenever the log was within its bound. */
  lemma {:induction false} AddedInTurnIsLogged<T>(log: seq<T>, es: seq<T>)
    requires |log| <= MaxLogs
    ensures AddedInTurn(log, es) == Logged(log, es)
    decreases |es|
  {
    if es == [] {
      assert Logged(log, es) == Capped(log);
    } else {
      var init, e := es[..|es| - 1], es[|es| - 1];
      AddedInTurnIsLogged(log, init);
      CappedAbsorbs([e], Reversed(init) + log);
      assert es == init + [e];
      ReversedAppend(init, [e]);
      assert Reversed([e]) == [e] by {
        assert [e][1..] == [];
      }
      assert [e] + (Reversed(init) + log) == Reversed(es) + log;
    }
  }

  /** Adding a batch and then another is adding both, in order. */
  lemma LoggedAppend<T>(log: seq<T>, a: seq<T>, b: seq<T>)
    ensures Logged(Logged(log, a), b) == Logged(log, a + b)
  {
    CappedAbsorbs(Reversed(b), Reversed(a) + log);
    ReversedAppend(a, b);
    assert Reversed(b) + (Reversed(a) + log) == Reversed(a + b) + log;
  }

  /** One entry and then two more is the three of them, in order. */
  lemma LoggedThree<T>(log: seq<T>, e1: T, e2: T, e3: T)
    ensures Logged(Logged(log, [e1]), [e2, e3]) == Logged(log, [e1, e2, e3])
  {
    LoggedAppend(log, [e1], [e2, e3]);
    assert [e1] + [e2, e3] == [e1, e2, e3];
  }

  /** Adding nothing leaves a log within its bound as it was. */
  lemma LoggedNothing<T>(log: seq<T>)
    requires |log| <= MaxLogs
    ensures Logged(log, []) == log
  {
    assert Reversed<T>([]) + log == log;
  }

  /**
   * One addLog: the new entry is first, at most MaxLogs entries remain, and
   * what is dropped is only the oldest entries, in order.
   */
  lemma LoggedOne<T>(log: seq<T>, e: T)
    requires |log| <= MaxLogs
    ensures var r := Logged(log, [e]);
      && r[0] == e
      && |r| <= MaxLogs
      && (|log| < MaxLogs ==> r == [e] + log)
      && (|log| == MaxLogs ==> r == [e] + log[..MaxLogs - 1])
  {
    assert Reversed([e]) == [e] by {
      assert [e][1..] == [];
    }
  }
}
