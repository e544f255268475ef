/** Vocabulary shared by the Python and the Swift halves of the model:
    optional values, results with an error side, a few string facts, and
    the name under which a completed order is written. */
module Common {

  datatype Option<T> = None | Some(value: T)

  datatype Result<T, E> = Ok(value: T) | Err(error: E)

  /** `sub` occurs somewhere inside `s`. */
  predicate Contains(s: string, sub: string) {
    exists i :: 0 <= i <= |s| && sub <= s[i..]
  }

  /** `s` ends with `suffix`. */
  predicate EndsWith(s: string, suffix: string) {
    |suffix| <= |s| && s[|s| - |suffix|..] == suffix
  }

  /** Every key occurs at most once. */
  predicate Distinct<T(==)>(s: seq<T>) {
    forall i, j :: 0 <= i < j < |s| ==> s[i] != s[j]
  }

  /** A string glued together as `prefix + middle + suffix` contains `middle`. */
  lemma ContainsMiddle(prefix: string, middle: string, suffix: string)
    ensures Contains(prefix + middle + suffix, middle)
  {
    var s := prefix + middle + suffix;
    assert middle <= s[|prefix|..];
  }

  /** The name of the file a completed order is written to: "completed_",
      the order identifier, "_", a time stamp, ".json". Both apps use this
      shape; they differ in how the stamp is rendered. */
  function CompletionFileName(orderId: string, stamp: string): (name: string)
    ensures "completed_" <= name && EndsWith(name, ".json")
    ensures |name| == |orderId| + |stamp| + 16
  {
    "completed_" + orderId + "_" + stamp + ".json"
  }

  /** Splitting at the last underscore is unambiguous when the part after it
      has no underscore of its own. */
  lemma SplitAtLastUnderscore(a: string, b: string, c: string, d: string)
    requires '_' !in b && '_' !in d
    requires a + "_" + b == c + "_" + d
    ensures a == c && b == d
  {
    var s := a + "_" + b;
    assert s[|a|] == '_';
    assert (c + "_" + d)[|c|] == '_';
    assert a == s[..|a|] && c == s[..|c|];
    assert b == s[|a| + 1..] && d == s[|c| + 1..];
  }

  /** Two completions get the same file name only when they have the same
      identifier and the same stamp, provided stamps never contain '_'
      (an ISO-8601 time and a decimal number never do). Identifiers may
      contain underscores. */
  lemma {:induction false} CompletionFileNameInjective(id1: string, stamp1: string, id2: string, stamp2: string)
    requires '_' !in stamp1 && '_' !in stamp2
    requires CompletionFileName(id1, stamp1) == CompletionFileName(id2, stamp2)
    ensures id1 == id2 && stamp1 == stamp2
  {
    var n := CompletionFileName(id1, stamp1);
    assert id1 + "_" + stamp1 == n[10..|n| - 5];
    assert id2 + "_" + stamp2 == n[10..|n| - 5];
    SplitAtLastUnderscore(id1, stamp1, id2, stamp2);
  }
}
