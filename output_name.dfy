/**
 * The output-name rule of `IPADump.run`: with no output given the archive is
 * named after the process id in the working directory, inside the output
 * when it names a directory, and the output itself otherwise.
 * `os.path.isdir(output)` is a parameter; `os.path.join` is the POSIX rule.
 */
module OutputName {
  import opened Wrappers

  predicate IsDigit(c: char) {
    '0' <= c <= '9'
  }

  function DigitChar(d: nat): (c: char)
    requires d < 10
    ensures IsDigit(c) && c as int - '0' as int == d
  {
    ('0' as int + d) as char
  }

  function DigitValue(c: char): int {
    c as int - '0' as int
  }

  /** The decimal digits of a natural number, most significant first, without leading zeros. */
  function Digits(n: nat): (s: string)
    ensures |s| >= 1
    ensures forall i :: 0 <= i < |s| ==> IsDigit(s[i])
    ensures s[0] == '0' <==> n == 0
    decreases n
  {
    if n < 10 then [DigitChar(n)] else Digits(n / 10) + [DigitChar(n % 10)]
  }

  /** `str(n)` for an integer: an optional minus sign followed by the digits. */
  function Decimal(n: int): (s: string)
    ensures |s| >= 1
    ensures forall i :: 0 <= i < |s| ==> IsDigit(s[i]) || (i == 0 && s[i] == '-')
    ensures n < 0 <==> s[0] == '-'
    ensures var digits := if n < 0 then s[1..] else s;
      |digits| >= 1 && (digits[0] == '0' <==> n == 0)
  {
    if n < 0 then "-" + Digits(-n) else Digits(n)
  }

  /** The value of a non-empty string of decimal digits. */
  function ParseDigits(s: string): Option<nat>
  {
    if |s| == 0 || !IsDigit(s[|s| - 1]) then None
    else if |s| == 1 then Some(DigitValue(s[0]))
    else
      match ParseDigits(s[..|s| - 1])
      case None => None
      case Some(v) => Some(v * 10 + DigitValue(s[|s| - 1]))
  }

  /** `int(s)` restricted to what `str` produces: an optional minus sign and digits. */
  function ParseDecimal(s: string): Option<int>
  {
    var negative := |s| > 0 && s[0] == '-';
    var magnitude := ParseDigits(if negative then s[1..] else s);
    if magnitude.None? then None
    else if negative then Some(-(magnitude.value as int))
    else Some(magnitude.value as int)
  }

  lemma {:induction false} ParseDigitsOfDigits(n: nat)
    ensures ParseDigits(Digits(n)) == Some(n)
    decreases n
  {
    if n >= 10 {
      var s := Digits(n);
      ParseDigitsOfDigits(n / 10);
      assert s[..|s| - 1] == Digits(n / 10);
      assert DigitValue(s[|s| - 1]) == n % 10;
    }
  }

  /** `int(str(n)) == n`: the decimal form of a number denotes that number. */
  lemma DecimalRoundTrip(n: int)
    ensures ParseDecimal(Decimal(n)) == Some(n)
  {
    if n < 0 {
      ParseDigitsOfDigits(-n);
      assert Decimal(n)[1..] == Digits(-n);
    } else {
      ParseDigitsOfDigits(n);
    }
  }

  /** The default archive name `<pid>.ipa`. */
  function DefaultName(pid: int): (name: string)
    ensures |name| >= 5 && name[|name| - 4..] == ".ipa"
    ensures '/' !in name
  {
    Decimal(pid) + ".ipa"
  }

  /** Recovers the process id from a default archive name. */
  function PidOf(name: string): Option<int>
  {
    if |name| >= 4 && name[|name| - 4..] == ".ipa" then ParseDecimal(name[..|name| - 4]) else None
  }

  /** `os.path.join(a, b)` on POSIX: an absolute `b` replaces `a`; one separator joins them. */
  function Join(a: string, b: string): (r: string)
    ensures |b| > 0 && b[0] == '/' ==> r == b
    ensures !(|b| > 0 && b[0] == '/') ==>
      && |a| + |b| <= |r| <= |a| + |b| + 1
      && r[..|a|] == a && r[|r| - |b|..] == b
      && (|r| == |a| + |b| + 1 <==> a != [] && a[|a| - 1] != '/')
      && (|r| == |a| + |b| + 1 ==> r[|a|] == '/')
  {
    if |b| > 0 && b[0] == '/' then b
    else if a == [] || a[|a| - 1] == '/' then a + b
    else a + "/" + b
  }

  /** `os.path.basename`: what follows the last separator. */
  function BaseName(p: string): string
  {
    if p == [] || p[|p| - 1] == '/' then [] else BaseName(p[..|p| - 1]) + [p[|p| - 1]]
  }

  /** The name of the archive as `run` derives it from the output argument. */
  function IpaName(pid: int, output: Option<string>, outputIsDir: bool): (name: string)
    ensures output.None? ==> name == Decimal(pid) + ".ipa"
    ensures output.Some? && outputIsDir ==> name == Join(output.value, DefaultName(pid))
    ensures output.Some? && !outputIsDir ==> name == output.value
  {
    match output
    case None => DefaultName(pid)
    case Some(o) => if outputIsDir then Join(o, DefaultName(pid)) else o
  }

  lemma {:induction false} BaseNameAfterSeparator(dir: string, file: string)
    requires dir == [] || dir[|dir| - 1] == '/'
    requires '/' !in file
    ensures BaseName(dir + file) == file
  {
    if file != [] {
      var init := file[..|file| - 1];
      assert (dir + file)[..|dir + file| - 1] == dir + init;
      BaseNameAfterSeparator(dir, init);
      assert init + [file[|file| - 1]] == file;
    } else {
      assert dir + file == dir;
    }
  }

  /** With no output the archive is `<pid>.ipa`, and that name gives back the pid. */
  lemma NoOutputNamesPid(pid: int, outputIsDir: bool)
    ensures IpaName(pid, None, outputIsDir) == Decimal(pid) + ".ipa"
    ensures PidOf(IpaName(pid, None, outputIsDir)) == Some(pid)
  {
    var name := IpaName(pid, None, outputIsDir);
    assert name[..|name| - 4] == Decimal(pid);
    DecimalRoundTrip(pid);
  }

  /**
   * With a directory as output the archive is `<pid>.ipa` inside it: the
   * name starts with the directory, then at most one added separator, and
   * its last component is `<pid>.ipa`.
   */
  lemma DirectoryOutputHoldsPidFile(pid: int, dir: string)
    ensures var name := IpaName(pid, Some(dir), true);
      && BaseName(name) == DefaultName(pid)
      && (name == dir + DefaultName(pid) || name == dir + "/" + DefaultName(pid))
      && PidOf(BaseName(name)) == Some(pid)
  {
    var file := DefaultName(pid);
    assert file[0] != '/';
    if dir == [] || dir[|dir| - 1] == '/' {
      BaseNameAfterSeparator(dir, file);
    } else {
      assert dir + "/" + file == (dir + "/") + file;
      BaseNameAfterSeparator(dir + "/", file);
    }
    NoOutputNamesPid(pid, true);
  }
}
