/**
 The helpers of internal/components/utils/utils.go: the worker-limit check
 on an untyped value and the name of the per-process pid file.

 Reading the kernel's boot id is I/O; its outcome (the raw file content or
 an error) is an input.
 */
module ComponentUtils {
  import opened Wrappers
  import Strings
  import Seqs

  /** A Go `any` as far as a type switch on `int` can tell. */
  datatype Value = GoInt(i: int) | NotInt

  /** `ValidateWorkerLimit(value)`: nil for an `int` ≥ 0; otherwise the matching error. */
  function ValidateWorkerLimit(value: Value): (r: Outcome)
    ensures r == Pass <==> value.GoInt? && value.i >= 0
    ensures value.GoInt? && value.i < 0 ==> r == Fail("worker limit cannot be negative")
    ensures value.NotInt? ==> r == Fail("invalid type for worker limit")
  {
    match value
    case NotInt => Fail("invalid type for worker limit")
    case GoInt(i) => if i < 0 then Fail("worker limit cannot be negative") else Pass
  }

  /** `GetBootID`: the boot-id file's content with surrounding white space removed, or the read error. */
  function GetBootID(raw: Result<string>): (r: Result<string>)
    ensures r.Ok? <==> raw.Ok?
    ensures r.Err? ==> r == raw
    ensures r.Ok? ==> Strings.Trimmed(r.value)
  {
    match raw
    case Err(e) => Err(e)
    case Ok(s) => Ok(Strings.TrimSpace(s))
  }

  /** The `{name}_{pid}_{bootid}.pid` layout. */
  function PidFileName(name: string, pid: int, bootId: string): string
  {
    name + "_" + Strings.IntToDecimal(pid) + "_" + bootId + ".pid"
  }

  /** `generateProcessFileName(name, pid)`: "" when the boot id cannot be read, otherwise the pid-file name over the trimmed boot id. */
  function GenerateProcessFileName(name: string, pid: int, raw: Result<string>): (r: string)
    ensures r == "" <==> raw.Err?
    ensures raw.Ok? ==> r == PidFileName(name, pid, Strings.TrimSpace(raw.value))
    ensures raw.Ok? ==> |r| >= 4 && r[|r| - 4..] == ".pid"
  {
    match GetBootID(raw)
    case Err(_) => ""
    case Ok(b) => PidFileName(name, pid, b)
  }

  // ---------------------------------------------------------------------
  // Properties
  // ---------------------------------------------------------------------

  /** The rendering of an integer contains no underscore. */
  lemma DecimalHasNoUnderscore(i: int)
    ensures '_' !in Strings.IntToDecimal(i)
  {
    var r := Strings.IntToDecimal(i);
    var d := Strings.NatToDecimal(if i < 0 then -i else i);
    assert forall k :: 0 <= k < |d| ==> '0' <= d[k] <= '9';
    if i < 0 {
      assert r == "-" + d;
      assert forall k :: 1 <= k < |r| ==> r[k] == d[k - 1];
    }
  }

  /** The first underscore after an underscore-free head is the one that ends it. */
  lemma FirstUnderscore(x: string, u: string)
    requires '_' !in x
    ensures Seqs.IndexOf(x + "_" + u, '_') == |x|
  {
    var z := x + "_" + u;
    assert forall k :: 0 <= k < |x| ==> z[k] == x[k] && x[k] in x;
    assert z[|x|] == '_';
  }

  /** Two underscore-free heads before an underscore split alike. */
  lemma SplitAtUnderscore(x: string, y: string, u: string, v: string)
    requires '_' !in x && '_' !in y
    requires x + "_" + u == y + "_" + v
    ensures x == y && u == v
  {
    FirstUnderscore(x, u);
    FirstUnderscore(y, v);
    var s := x + "_" + u;
    assert x == s[..|x|] && y == s[..|y|];
    assert u == s[|x| + 1..] && v == s[|y| + 1..];
  }

  /** Integer rendering is injective, the sign included. */
  lemma IntToDecimalInjective(i: int, j: int)
    requires Strings.IntToDecimal(i) == Strings.IntToDecimal(j)
    ensures i == j
  {
    if i < 0 && j < 0 {
      Strings.NatToDecimalInjective(-i, -j);
    } else if i >= 0 && j >= 0 {
      Strings.NatToDecimalInjective(i, j);
    }
  }

  /** The pid-file name regrouped as its fixed head and the part that starts with the pid. */
  lemma PidFileNameParts(name: string, pid: int, bootId: string)
    ensures PidFileName(name, pid, bootId) == (name + "_") + (Strings.IntToDecimal(pid) + "_" + (bootId + ".pid"))
  {
  }

  /** Within one process name and one boot, different pids get different pid files. */
  lemma PidFileNamesDistinct(name: string, pid1: int, pid2: int, raw: string)
    requires pid1 != pid2
    ensures GenerateProcessFileName(name, pid1, Ok(raw)) != GenerateProcessFileName(name, pid2, Ok(raw))
  {
    var b := Strings.TrimSpace(raw);
    var head := name + "_";
    var rest := b + ".pid";
    var t1 := Strings.IntToDecimal(pid1) + "_" + rest;
    var t2 := Strings.IntToDecimal(pid2) + "_" + rest;
    PidFileNameParts(name, pid1, b);
    PidFileNameParts(name, pid2, b);
    if head + t1 == head + t2 {
      assert t1 == (head + t1)[|head|..];
      assert t2 == (head + t2)[|head|..];
      DecimalHasNoUnderscore(pid1);
      DecimalHasNoUnderscore(pid2);
      SplitAtUnderscore(Strings.IntToDecimal(pid1), Strings.IntToDecimal(pid2), rest, rest);
      IntToDecimalInjective(pid1, pid2);
    }
  }

  /** White space around the boot id in the file does not change the pid-file name. */
  lemma PaddingIgnored(name: string, pid: int, pre: string, bootId: string, post: string)
    requires Strings.AllSpace(pre) && Strings.AllSpace(post) && Strings.Trimmed(bootId)
    ensures GenerateProcessFileName(name, pid, Ok(pre + bootId + post)) == PidFileName(name, pid, bootId)
  {
    Strings.TrimSpacePadded(pre, bootId, post);
  }
}
