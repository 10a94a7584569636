/**
 * `BaseProcess` of base/__init__.py: the dump of construction parameters
 * (`_format_kwarg`, `_format_kwargs`) and the catch-all entry point `run`.
 */
module Process {
  import opened Http

  /** A parameter value as `%s` and `__class__.__name__` see it. */
  datatype Arg = Arg(text: string, typeName: string)

  /** `' ' * n`: n spaces, none when n is not positive. */
  function Spaces(n: int): (s: string)
    ensures |s| == if n > 0 then n else 0
    ensures forall i :: 0 <= i < |s| ==> s[i] == ' '
    decreases n
  {
    if n <= 0 then "" else " " + Spaces(n - 1)
  }

  /** `k[:n]`. */
  function Prefix(k: string, n: nat): (p: string)
    ensures |p| == if |k| <= n then |k| else n
    ensures p <= k
  {
    if |k| <= n then k else k[..n]
  }

  /**
   * The key column of one line: `k[:14]` followed by `15 - len(k)` spaces.
   * A key of at most 14 characters is padded to exactly 15; a longer key is
   * cut to 14 characters and gets no padding at all.
   */
  function KeyField(k: string): (f: string)
    ensures |k| <= 14 ==> |f| == 15 && f[..|k|] == k
    ensures |k| <= 14 ==> forall i :: |k| <= i < 15 ==> f[i] == ' '
    ensures |k| >= 15 ==> |f| == 14 && f == k[..14]
  {
    Prefix(k, 14) + Spaces(15 - |k|)
  }

  /**
   * `_format_kwarg(k, v)`: one line of the parameter dump, whose layout
   * FormatKwargLayout gives in full.
   */
  function FormatKwarg(k: string, v: Arg): (line: string)
    ensures |line| == 6 + KeyWidth(k) + |v.text| + |v.typeName|
    ensures line[..3] == "\n--" && line[|line| - 1] == ')'
  {
    "\n--" + KeyField(k) + v.text + " (" + v.typeName + ")"
  }

  /** The width of the key column for key `k`. */
  function KeyWidth(k: string): (w: nat)
  {
    if |k| <= 14 then 15 else 14
  }

  /**
   * Layout of one line: the marker, a key column whose width depends only on
   * the key's length, then the value and its type name in brackets.
   */
  lemma FormatKwargLayout(k: string, v: Arg)
    ensures var line := FormatKwarg(k, v);
      && |line| == 3 + KeyWidth(k) + |v.text| + 3 + |v.typeName|
      && line[..3] == "\n--"
      && line[3..3 + KeyWidth(k)] == KeyField(k)
      && line[3 + KeyWidth(k)..] == v.text + " (" + v.typeName + ")"
  {
    var line := FormatKwarg(k, v);
    assert line == "\n--" + KeyField(k) + (v.text + " (" + v.typeName + ")");
  }

  /**
   * With a key of 15 or more characters the value starts right after the
   * 14th key character, with no space in between.
   */
  lemma LongKeyTouchesValue(k: string, v: Arg)
    requires |k| >= 15 && |v.text| > 0
    ensures FormatKwarg(k, v)[16] == k[13]
    ensures FormatKwarg(k, v)[17] == v.text[0]
  {
    FormatKwargLayout(k, v);
  }

  /** The length of a dump: per parameter, 6 framing characters, the key column and the two texts. */
  function DumpLength(kwargs: seq<(string, Arg)>): (n: nat)
  {
    if kwargs == [] then 0
    else 6 + KeyWidth(kwargs[0].0) + |kwargs[0].1.text| + |kwargs[0].1.typeName| + DumpLength(kwargs[1..])
  }

  /** `_format_kwargs(kwargs)`: the lines of all entries, in iteration order. */
  function FormatKwargs(kwargs: seq<(string, Arg)>): (dump: string)
    ensures |dump| == DumpLength(kwargs)
  {
    if kwargs == [] then "" else FormatKwarg(kwargs[0].0, kwargs[0].1) + FormatKwargs(kwargs[1..])
  }

  /** No parameters give the empty dump; one parameter gives its single line. */
  lemma FormatKwargsSmall(k: string, v: Arg)
    ensures FormatKwargs([]) == ""
    ensures FormatKwargs([(k, v)]) == FormatKwarg(k, v)
  {
    assert [(k, v)][1..] == [];
  }

  /** The dump of a concatenation is the concatenation of the dumps. */
  lemma {:induction false} FormatKwargsAppend(a: seq<(string, Arg)>, b: seq<(string, Arg)>)
    ensures FormatKwargs(a + b) == FormatKwargs(a) + FormatKwargs(b)
  {
    if a == [] {
      assert a + b == b;
    } else {
      assert (a + b)[0] == a[0];
      assert (a + b)[1..] == a[1..] + b;
      FormatKwargsAppend(a[1..], b);
    }
  }

  /** `NotImplementedError()`, raised by the abstract `_run`. */
  const NotImplemented := Exception("NotImplementedError", "", false)

  /**
   * `run()`: runs the body `_run()`; an exception it raises is logged at
   * error level and swallowed, so `run` itself always returns normally.
   */
  function Run(body: Outcome<()>): (r: Logged<()>)
    ensures r.outcome == Returned(())
    ensures body.Returned? ==> r.log == []
    ensures body.Raised? ==> r.log == [LoggedError(body.ex)]
  {
    match body
    case Returned(_) => Logged(Returned(()), [])
    case Raised(ex) => Logged(Returned(()), [LoggedError(ex)])
  }

  /** A process that does not override `_run` logs `NotImplementedError` and ends normally. */
  lemma RunWithoutBody()
    ensures Run(Raised(NotImplemented)) == Logged(Returned(()), [LoggedError(NotImplemented)])
  {
  }

  /** Two runs that end alike and log alike came from the same body outcome. */
  lemma RunLogDeterminesBody(a: Outcome<()>, b: Outcome<()>)
    requires Run(a) == Run(b)
    ensures a == b
  {
    assert |Run(a).log| == |Run(b).log|;
    if a.Raised? {
      assert LoggedError(a.ex) == Run(a).log[0] == Run(b).log[0] == LoggedError(b.ex);
    } else {
      assert b.Returned?;
      assert a.value == () == b.value;
    }
  }
}
