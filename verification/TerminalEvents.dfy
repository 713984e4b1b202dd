// Identity of terminal callback events.

module TerminalEvents {

  const NUL := '\0'

  const TERMINAL := "turn_terminal"
  const REFERENCE := "turn_terminal_reference"

  /** `terminal_event_id`, with SHA-256 standing for the identity it hashes. */
  function TerminalEventId(session: string, turn: string, kind: string): string {
    "terminal-" + (session + [NUL] + (turn + [NUL] + kind))
  }

  function Prefix(s: string): nat {
    if s == "" || s[0] == NUL then 0 else 1 + Prefix(s[1..])
  }

  function Suffix(s: string): nat {
    if s == "" || s[|s| - 1] == NUL then 0 else 1 + Suffix(s[..|s| - 1])
  }

  lemma {:induction false} PrefixBeforeNul(s: string, r: string)
    requires NUL !in s
    ensures Prefix(s + [NUL] + r) == |s|
    decreases |s|
  {
    if s == "" {
    } else {
      PrefixBeforeNul(s[1..], r);
      assert (s + [NUL] + r)[1..] == s[1..] + [NUL] + r;
    }
  }

  lemma {:induction false} SuffixAfterNul(t: string, k: string)
    requires NUL !in k
    ensures Suffix(t + [NUL] + k) == |k|
    decreases |k|
  {
    if k == "" {
    } else {
      SuffixAfterNul(t, k[..|k| - 1]);
      assert (t + [NUL] + k)[..|t| + |k|] == t + [NUL] + k[..|k| - 1];
    }
  }

  lemma SplitAt(s1: string, r1: string, s2: string, r2: string)
    requires s1 + [NUL] + r1 == s2 + [NUL] + r2 && |s1| == |s2|
    ensures s1 == s2 && r1 == r2
  {
    var a, b := s1 + [NUL] + r1, s2 + [NUL] + r2;
    assert a[..|s1|] == s1 && b[..|s2|] == s2;
    assert a[|s1| + 1..] == r1 && b[|s2| + 1..] == r2;
  }

  /** Distinct sessions, turns or kinds have distinct event ids: only session ids and kinds
      must be free of the separator, turn ids may be anything. */
  lemma EventIdsDistinct(s1: string, t1: string, k1: string, s2: string, t2: string, k2: string)
    requires NUL !in s1 && NUL !in s2 && NUL !in k1 && NUL !in k2
    ensures TerminalEventId(s1, t1, k1) == TerminalEventId(s2, t2, k2) <==> s1 == s2 && t1 == t2 && k1 == k2
  {
    var a, b := TerminalEventId(s1, t1, k1), TerminalEventId(s2, t2, k2);
    if a == b {
      assert a[9..] == s1 + [NUL] + (t1 + [NUL] + k1) && b[9..] == s2 + [NUL] + (t2 + [NUL] + k2);
      PrefixBeforeNul(s1, t1 + [NUL] + k1);
      PrefixBeforeNul(s2, t2 + [NUL] + k2);
      SplitAt(s1, t1 + [NUL] + k1, s2, t2 + [NUL] + k2);
      SuffixAfterNul(t1, k1);
      SuffixAfterNul(t2, k2);
      SplitAt(t1, k1, t2, k2);
    }
  }
}
