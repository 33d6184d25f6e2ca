/** Option and io::Result as the agent uses them: an error carries the
    `io::ErrorKind` the source picks and its message text. */
module Results {

  datatype Option<+T> = None | Some(value: T) {

    /** `Option::unwrap_or` */
    function GetOr(default: T): T {
      match this
      case Some(v) => v
      case None => default
    }
  }

  /** The `io::ErrorKind`s the core raises; anything else is `Other`. */
  datatype ErrorKind = NotFound | InvalidData | Other

  datatype IoError = IoError(kind: ErrorKind, message: string)

  datatype Result<+T> = Ok(value: T) | Err(error: IoError) {

    /** `Result::ok` */
    function ToOption(): Option<T> {
      match this
      case Ok(v) => Some(v)
      case Err(_) => None
    }
  }

  /** True when `needle` starts at position `k` of `haystack`. */
  predicate OccursAt(haystack: string, needle: string, k: int) {
    0 <= k <= |haystack| - |needle| && haystack[k..k + |needle|] == needle
  }

  /** True when `needle` occurs somewhere inside `haystack`. */
  ghost predicate Contains(haystack: string, needle: string) {
    exists k :: OccursAt(haystack, needle, k)
  }

  /** Lemma: `needle` occurs right after `prefix`. */
  lemma OccursInMiddle(prefix: string, needle: string, suffix: string)
    ensures OccursAt(prefix + needle + suffix, needle, |prefix|)
    ensures Contains(prefix + needle + suffix, needle)
  {
    var h := prefix + needle + suffix;
    assert h[|prefix|..|prefix| + |needle|] == needle;
    assert OccursAt(h, needle, |prefix|);
  }

  /** The first `Some` that `f` gives along `xs`: a search loop that
      returns on its first hit. */
  function FirstSome<A, B>(xs: seq<A>, f: A -> Option<B>): (r: Option<B>)
    ensures r.None? <==> forall i :: 0 <= i < |xs| ==> f(xs[i]).None?
  {
    if xs == [] then None
    else if f(xs[0]).Some? then f(xs[0])
    else
      var r := FirstSome(xs[1..], f);
      assert forall i :: 1 <= i < |xs| ==> xs[i] == xs[1..][i - 1];
      r
  }

  /** The search answers with the FIRST hit; later elements are never
      looked at. */
  lemma {:induction false} FirstSomeAt<A, B>(xs: seq<A>, f: A -> Option<B>, i: nat)
    requires i < |xs| && f(xs[i]).Some?
    requires forall j :: 0 <= j < i ==> f(xs[j]).None?
    ensures FirstSome(xs, f) == f(xs[i])
  {
    if i > 0 {
      assert xs[1..][i - 1] == xs[i];
      forall j | 0 <= j < i - 1 ensures f(xs[1..][j]).None? {
        assert xs[1..][j] == xs[j + 1];
      }
      FirstSomeAt(xs[1..], f, i - 1);
    }
  }

  /** Position of the first hit. */
  function FirstHit<A, B>(xs: seq<A>, f: A -> Option<B>): (i: nat)
    requires exists k :: 0 <= k < |xs| && f(xs[k]).Some?
    ensures i < |xs| && f(xs[i]).Some?
    ensures forall j :: 0 <= j < i ==> f(xs[j]).None?
  {
    if f(xs[0]).Some? then 0
    else
      assert exists k :: 0 <= k < |xs[1..]| && f(xs[1..][k]).Some? by {
        var k :| 0 <= k < |xs| && f(xs[k]).Some?;
        assert xs[1..][k - 1] == xs[k];
      }
      var i := FirstHit(xs[1..], f);
      assert forall j :: 1 <= j <= i ==> xs[j] == xs[1..][j - 1];
      1 + i
  }

  /** A hit is some element's answer. */
  lemma FirstSomeIsSomeAnswer<A, B>(xs: seq<A>, f: A -> Option<B>)
    requires FirstSome(xs, f).Some?
    ensures exists i :: 0 <= i < |xs| && f(xs[i]).Some? && FirstSome(xs, f) == f(xs[i])
  {
    var i := FirstHit(xs, f);
    FirstSomeAt(xs, f, i);
  }
}
