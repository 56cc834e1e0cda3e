/** Reading /proc/<pid>/stat: the parser of the scan, the quick name lookup of the sweep, and the real-time test,
    against the line as proc(5) describes it. */
module StatLine {
  import opened Wrappers
  import opened Text

  // ----- text functions of the Rust standard library -----

  function Find(s: string, c: char): (r: Option<nat>)
    ensures r.Some? ==> r.value < |s| && s[r.value] == c
    decreases s
  {
    if s == [] then None
    else if s[0] == c then Some(0)
    else match Find(s[1..], c)
      case Some(i) => Some(i + 1)
      case None => None
  }

  function RFind(s: string, c: char): (r: Option<nat>)
    ensures r.Some? ==> r.value < |s|
    decreases s
  {
    if s == [] then None
    else if s[|s| - 1] == c then Some(|s| - 1)
    else RFind(s[..|s| - 1], c)
  }

  /** Length of the run of non-space characters at the start. */
  function TokenLength(s: string): (n: nat)
    ensures n <= |s| && (forall i | 0 <= i < n :: !IsSpace(s[i])) && (n < |s| ==> IsSpace(s[n]))
    decreases s
  {
    if s == [] || IsSpace(s[0]) then 0 else 1 + TokenLength(s[1..])
  }

  function SplitWhitespace(s: string): seq<string>
    decreases |s|
  {
    if s == [] then []
    else if IsSpace(s[0]) then SplitWhitespace(s[1..])
    else [s[..TokenLength(s)]] + SplitWhitespace(s[TokenLength(s)..])
  }

  function DigitValue(c: char): nat
    requires IsDigit(c)
  {
    (c - '0') as nat
  }

  function Value(s: string): Option<nat>
    decreases s
  {
    if s == [] then Some(0)
    else
      var last := s[|s| - 1];
      match Value(s[..|s| - 1])
      case Some(v) => if IsDigit(last) then Some(10 * v + DigitValue(last)) else None
      case None => None
  }

  /** Digits after an optional plus sign, below the bound of the type. */
  function ParseUnsigned(s: string, bound: nat): Option<nat> {
    var body := if s != [] && s[0] == '+' then s[1..] else s;
    match Value(body)
    case Some(v) => if body != [] && v < bound then Some(v) else None
    case None => None
  }

  const U32_BOUND := 0x1_0000_0000
  const U64_BOUND := 0x1_0000_0000_0000_0000
  const I32_BOUND := 0x8000_0000

  function ParseI32(s: string): Option<int> {
    if s != [] && s[0] == '-' then
      match Value(s[1..])
      case Some(v) => if |s| > 1 && v <= I32_BOUND then Some(-(v as int)) else None
      case None => None
    else
      match ParseUnsigned(s, I32_BOUND)
      case Some(v) => Some(v)
      case None => None
  }

  // ----- the daemon's readers -----

  const STAT_IDX_STATE := 0
  const STAT_IDX_PPID := 1
  const STAT_IDX_UTIME := 11
  const STAT_IDX_STIME := 12
  const STAT_IDX_NICE := 16
  const STAT_IDX_STARTTIME := 19

  datatype Stat = Stat(comm: string, state: char, ppid: nat, utime: nat, stime: nat, nice: int, starttime: nat)

  function ParseFields(comm: string, fields: seq<string>): Option<Stat> {
    if |fields| <= STAT_IDX_STARTTIME || fields[STAT_IDX_STATE] == [] then None
    else
      var ppid := ParseUnsigned(fields[STAT_IDX_PPID], U32_BOUND);
      var utime := ParseUnsigned(fields[STAT_IDX_UTIME], U64_BOUND);
      var stime := ParseUnsigned(fields[STAT_IDX_STIME], U64_BOUND);
      var nice := ParseI32(fields[STAT_IDX_NICE]);
      var starttime := ParseUnsigned(fields[STAT_IDX_STARTTIME], U64_BOUND);
      if ppid.Some? && utime.Some? && stime.Some? && nice.Some? && starttime.Some? then
        Some(Stat(comm, fields[STAT_IDX_STATE][0], ppid.value, utime.value, stime.value, nice.value, starttime.value))
      else None
  }

  /** The name is what stands between the first opening and the last closing parenthesis. */
  function ParseStat(line: string): Option<Stat> {
    var open, rparen := Find(line, '('), RFind(line, ')');
    if open.None? || rparen.None? || rparen.value <= open.value then None
    else ParseFields(Trim(line[open.value + 1..rparen.value]), SplitWhitespace(line[rparen.value + 1..]))
  }

  /** The sweep's shortcut stops at the first closing parenthesis. */
  function CommOf(line: string): Option<string> {
    match Find(line, '(')
    case Some(open) =>
      (match Find(line[open..], ')')
       case Some(close) => Some(line[open + 1..open + close])
       case None => None)
    case None => None
  }

  const POLICY_FIELD := 41

  predicate IsRtPolicy(f: string) { f == "1" || f == "2" }

  /** The real-time test takes the 41st word of the whole line. */
  predicate RtScheduled(line: string) {
    var words := SplitWhitespace(line);
    |words| >= POLICY_FIELD && IsRtPolicy(words[POLICY_FIELD - 1])
  }

  method IsRtScheduled(line: string) returns (rt: bool)
    ensures rt == RtScheduled(line)
  {
    var fields := SplitWhitespace(line);
    var idx := 0;
    for i := 0 to |fields|
      invariant idx == i && i < POLICY_FIELD
    {
      idx := idx + 1;
      if idx == POLICY_FIELD {
        return fields[i] == "1" || fields[i] == "2";
      }
    }
    return false;
  }

  // ----- the line as the kernel prints it -----

  function DigitChar(n: nat): char
    requires n < 10
  {
    '0' + n as char
  }

  function Digits(n: nat): string {
    if n < 10 then [DigitChar(n)] else Digits(n / 10) + [DigitChar(n % 10)]
  }

  function Signed(n: int): string { if n < 0 then "-" + Digits(-n) else Digits(n) }

  /** The fields after the name, each preceded by a space, and the end of the line. */
  function Tail(fields: seq<string>): string
    decreases fields
  {
    if fields == [] then "\n" else " " + fields[0] + Tail(fields[1..])
  }

  function Line(pid: nat, comm: string, fields: seq<string>): string {
    Digits(pid) + " (" + comm + ")" + Tail(fields)
  }

  predicate IsToken(f: string) { f != [] && ')' !in f && forall i | 0 <= i < |f| :: !IsSpace(f[i]) }

  predicate AreTokens(fields: seq<string>) { forall i | 0 <= i < |fields| :: IsToken(fields[i]) }

  /** The fields show these values, at the positions of proc(5). */
  predicate Shows(fields: seq<string>, st: Stat) {
    && AreTokens(fields) && |fields| > STAT_IDX_STARTTIME
    && st.ppid < U32_BOUND && st.utime < U64_BOUND && st.stime < U64_BOUND && st.starttime < U64_BOUND
    && -I32_BOUND <= st.nice < I32_BOUND
    && fields[0] == [st.state] && fields[1] == Digits(st.ppid) && fields[11] == Digits(st.utime)
    && fields[12] == Digits(st.stime) && fields[16] == Signed(st.nice) && fields[19] == Digits(st.starttime)
  }

  // ----- numbers -----

  lemma {:induction false} DigitsRead(n: nat)
    ensures Digits(n) != [] && Value(Digits(n)) == Some(n)
    ensures forall c | c in Digits(n) :: IsDigit(c)
    decreases n
  {
    if n < 10 {
      assert [DigitChar(n)][..0] == [];
    } else {
      DigitsRead(n / 10);
      assert Digits(n)[..|Digits(n)| - 1] == Digits(n / 10);
    }
  }

  lemma UnsignedRoundTrip(n: nat, bound: nat)
    requires n < bound
    ensures ParseUnsigned(Digits(n), bound) == Some(n)
  {
    DigitsRead(n);
    assert Digits(n)[0] in Digits(n);
  }

  lemma NegativeRoundTrip(n: nat)
    requires 0 < n <= I32_BOUND
    ensures ParseI32("-" + Digits(n)) == Some(-(n as int))
  {
    DigitsRead(n);
    assert ("-" + Digits(n))[1..] == Digits(n);
  }

  lemma SignedRoundTrip(n: int)
    requires -I32_BOUND <= n < I32_BOUND
    ensures ParseI32(Signed(n)) == Some(n)
  {
    if n < 0 {
      NegativeRoundTrip(-n);
    } else {
      DigitsRead(n);
      assert Digits(n)[0] in Digits(n);
      UnsignedRoundTrip(n, I32_BOUND);
    }
  }

  // ----- words -----

  lemma {:induction false} TokenLengthOf(f: string, rest: string)
    requires (forall i | 0 <= i < |f| :: !IsSpace(f[i])) && (rest == [] || IsSpace(rest[0]))
    ensures TokenLength(f + rest) == |f|
    decreases f
  {
    if f == [] {
      assert f + rest == rest;
    } else {
      assert (f + rest)[1..] == f[1..] + rest;
      TokenLengthOf(f[1..], rest);
    }
  }

  lemma SplitToken(f: string, rest: string)
    requires f != [] && (forall i | 0 <= i < |f| :: !IsSpace(f[i])) && (rest == [] || IsSpace(rest[0]))
    ensures SplitWhitespace(f + rest) == [f] + SplitWhitespace(rest)
  {
    TokenLengthOf(f, rest);
    assert (f + rest)[..|f|] == f && (f + rest)[|f|..] == rest;
  }

  lemma SplitSpace(s: string)
    ensures SplitWhitespace(" " + s) == SplitWhitespace(s)
  {
    assert (" " + s)[1..] == s;
  }

  lemma {:induction false} TailShape(fields: seq<string>)
    requires AreTokens(fields)
    ensures Tail(fields) != [] && IsSpace(Tail(fields)[0]) && ')' !in Tail(fields)
    decreases fields
  {
    if fields != [] {
      TailShape(fields[1..]);
      assert IsToken(fields[0]);
    }
  }

  lemma TailUnfolds(fields: seq<string>)
    requires fields != []
    ensures Tail(fields) == " " + (fields[0] + Tail(fields[1..]))
  {
  }

  lemma {:induction false} TailSplits(fields: seq<string>)
    requires AreTokens(fields)
    ensures SplitWhitespace(Tail(fields)) == fields
    decreases fields
  {
    if fields == [] {
      assert Tail(fields)[1..] == "";
    } else {
      var f, rest := fields[0], fields[1..];
      assert IsToken(f) && AreTokens(rest);
      TailSplits(rest);
      TailShape(rest);
      SplitToken(f, Tail(rest));
      SplitSpace(f + Tail(rest));
      TailUnfolds(fields);
    }
  }

  // ----- the round trip -----

  lemma {:induction false} FindIs(s: string, c: char, i: nat)
    requires i < |s| && s[i] == c && forall k | 0 <= k < i :: s[k] != c
    ensures Find(s, c) == Some(i)
    decreases i
  {
    if i > 0 {
      FindIs(s[1..], c, i - 1);
    }
  }

  lemma {:induction false} RFindIs(s: string, c: char, i: nat)
    requires i < |s| && s[i] == c && forall k | i < k < |s| :: s[k] != c
    ensures RFind(s, c) == Some(i)
    decreases s
  {
    if i < |s| - 1 {
      RFindIs(s[..|s| - 1], c, i);
    }
  }

  /** Where the name starts in a line. */
  function NameAt(pid: nat): nat { |Digits(pid)| + 2 }

  lemma LineParts(pid: nat, comm: string, fields: seq<string>)
    ensures var line, at := Line(pid, comm, fields), NameAt(pid);
      && at + |comm| < |line|
      && line[..at] == Digits(pid) + " (" && line[at - 1] == '(' && line[at..at + |comm|] == comm && line[at + |comm|] == ')'
      && line[at + |comm| + 1..] == Tail(fields)
  {
    assert Line(pid, comm, fields) == (Digits(pid) + " (") + (comm + (")" + Tail(fields)));
  }

  lemma OpenAt(pid: nat, comm: string, fields: seq<string>)
    ensures Find(Line(pid, comm, fields), '(') == Some(NameAt(pid) - 1)
  {
    LineParts(pid, comm, fields);
    DigitsRead(pid);
    var line, at := Line(pid, comm, fields), NameAt(pid);
    var head := Digits(pid) + " (";
    forall k | 0 <= k < at
      ensures line[k] == head[k]
    {
      assert line[..at][k] == head[k];
    }
    forall k | 0 <= k < |Digits(pid)|
      ensures head[k] != '('
    {
      assert Digits(pid)[k] in Digits(pid);
    }
    FindIs(line, '(', at - 1);
  }

  lemma CloseAt(pid: nat, comm: string, fields: seq<string>)
    requires AreTokens(fields)
    ensures RFind(Line(pid, comm, fields), ')') == Some(NameAt(pid) + |comm|)
  {
    LineParts(pid, comm, fields);
    TailShape(fields);
    var line, at := Line(pid, comm, fields), NameAt(pid) + |comm|;
    forall k | at < k < |line|
      ensures line[k] != ')'
    {
      assert line[k] == line[at + 1..][k - at - 1];
    }
    RFindIs(line, ')', at);
  }

  lemma FieldsRead(comm: string, st: Stat, fields: seq<string>)
    requires Shows(fields, st)
    ensures ParseFields(comm, fields) == Some(st.(comm := comm))
  {
    UnsignedRoundTrip(st.ppid, U32_BOUND);
    UnsignedRoundTrip(st.utime, U64_BOUND);
    UnsignedRoundTrip(st.stime, U64_BOUND);
    UnsignedRoundTrip(st.starttime, U64_BOUND);
    SignedRoundTrip(st.nice);
  }

  lemma ParseBetween(line: string, open: nat, rparen: nat)
    requires Find(line, '(') == Some(open) && RFind(line, ')') == Some(rparen) && open < rparen
    ensures ParseStat(line) == ParseFields(Trim(line[open + 1..rparen]), SplitWhitespace(line[rparen + 1..]))
  {
  }

  lemma ParseLine(pid: nat, comm: string, fields: seq<string>)
    requires AreTokens(fields)
    ensures ParseStat(Line(pid, comm, fields)) == ParseFields(Trim(comm), fields)
  {
    OpenAt(pid, comm, fields);
    CloseAt(pid, comm, fields);
    ParseBetween(Line(pid, comm, fields), NameAt(pid) - 1, NameAt(pid) + |comm|);
    LineParts(pid, comm, fields);
    TailSplits(fields);
  }

  /** Printing a stat line and parsing it returns every field, and the name with surrounding whitespace removed,
      whatever parentheses and spaces the name has. */
  lemma StatRoundTrip(pid: nat, st: Stat, fields: seq<string>)
    requires Shows(fields, st)
    ensures ParseStat(Line(pid, st.comm, fields)) == Some(st.(comm := Trim(st.comm)))
  {
    ParseLine(pid, st.comm, fields);
    FieldsRead(Trim(st.comm), st, fields);
  }

  /** No whitespace at either end. */
  predicate Trimmed(s: string) { s == [] || (!IsSpace(s[0]) && !IsSpace(s[|s| - 1])) }

  lemma {:induction false} TrimEndShortens(s: string)
    ensures TrimEnd(s) <= s && (TrimEnd(s) == s <==> s == [] || !IsSpace(s[|s| - 1]))
    decreases s
  {
    if s != [] && IsSpace(s[|s| - 1]) {
      TrimEndShortens(s[..|s| - 1]);
    }
  }

  lemma {:induction false} TrimStartShortens(s: string)
    ensures |TrimStart(s)| <= |s| && (TrimStart(s) == s <==> s == [] || !IsSpace(s[0]))
    ensures |TrimStart(s)| == |s| ==> TrimStart(s) == s
    decreases s
  {
    if s != [] && IsSpace(s[0]) {
      TrimStartShortens(s[1..]);
    }
  }

  lemma TrimIdentityIff(s: string)
    ensures Trim(s) == s <==> Trimmed(s)
  {
    TrimStartShortens(s);
    TrimEndShortens(TrimStart(s));
  }

  /** The round trip is exact precisely for names without whitespace at their ends. */
  lemma StatRoundTripIff(pid: nat, st: Stat, fields: seq<string>)
    requires Shows(fields, st)
    ensures ParseStat(Line(pid, st.comm, fields)) == Some(st) <==> Trimmed(st.comm)
  {
    StatRoundTrip(pid, st, fields);
    TrimIdentityIff(st.comm);
  }

  // ----- the sweep's shortcut -----

  /** The sweep reads the name up to its first closing parenthesis. */
  lemma CommOfLine(pid: nat, comm: string, fields: seq<string>, n: nat)
    requires n <= |comm| && (forall k | 0 <= k < n :: comm[k] != ')') && (n < |comm| ==> comm[n] == ')')
    ensures CommOf(Line(pid, comm, fields)) == Some(comm[..n])
  {
    var line, at := Line(pid, comm, fields), NameAt(pid);
    OpenAt(pid, comm, fields);
    LineParts(pid, comm, fields);
    FromName(line, at, comm, n);
    FindIs(line[at - 1..], ')', n + 1);
  }

  lemma FromName(line: string, at: nat, comm: string, n: nat)
    requires 0 < at && at + |comm| < |line| && line[at - 1] == '(' && line[at..at + |comm|] == comm && line[at + |comm|] == ')'
    requires n <= |comm| && (forall k | 0 <= k < n :: comm[k] != ')') && (n < |comm| ==> comm[n] == ')')
    ensures var rest := line[at - 1..];
      && n + 1 < |rest| && rest[n + 1] == ')' && (forall k | 0 <= k <= n :: rest[k] != ')')
      && line[at..at + n] == comm[..n]
  {
    forall k | 0 <= k < |comm|
      ensures line[at + k] == comm[k]
    {
      assert line[at + k] == line[at..at + |comm|][k];
    }
  }

  /** The sweep reads the same name as the scan exactly if it has no closing parenthesis and no whitespace at its
      ends. */
  lemma CommOfAgreesIff(pid: nat, st: Stat, fields: seq<string>)
    requires Shows(fields, st)
    ensures var line := Line(pid, st.comm, fields);
      && ParseStat(line).Some?
      && (CommOf(line) == Some(ParseStat(line).value.comm) <==> ')' !in st.comm && Trimmed(st.comm))
  {
    var comm := st.comm;
    StatRoundTrip(pid, st, fields);
    TrimIdentityIff(comm);
    if i :| 0 <= i < |comm| && comm[i] == ')' {
      var n := FirstClose(comm, i);
      CommOfLine(pid, comm, fields, n);
      TrimKeeps(comm, ')');
      assert ')' !in comm[..n];
    } else {
      CommOfLine(pid, comm, fields, |comm|);
      assert comm[..|comm|] == comm;
    }
  }

  lemma {:induction false} FirstClose(s: string, i: nat) returns (first: nat)
    requires i < |s| && s[i] == ')'
    ensures first < |s| && s[first] == ')' && forall k | 0 <= k < first :: s[k] != ')'
    decreases i
  {
    if k :| 0 <= k < i && s[k] == ')' {
      first := FirstClose(s, k);
    } else {
      first := i;
    }
  }

  lemma {:induction false} TrimStartKeeps(s: string, c: char)
    requires c in s && !IsSpace(c)
    ensures c in TrimStart(s)
    decreases s
  {
    if IsSpace(s[0]) {
      assert s == [s[0]] + s[1..];
      TrimStartKeeps(s[1..], c);
    }
  }

  lemma {:induction false} TrimEndKeeps(s: string, c: char)
    requires c in s && !IsSpace(c)
    ensures c in TrimEnd(s)
    decreases s
  {
    if IsSpace(s[|s| - 1]) {
      assert s == s[..|s| - 1] + [s[|s| - 1]];
      TrimEndKeeps(s[..|s| - 1], c);
    }
  }

  lemma TrimKeeps(s: string, c: char)
    requires c in s && !IsSpace(c)
    ensures c in Trim(s)
  {
    TrimStartKeeps(s, c);
    TrimEndKeeps(TrimStart(s), c);
  }

  // ----- the real-time test -----

  /** Index of the scheduling policy among the fields after the name. */
  const POLICY := 38

  /** The words a name makes of a line, with its parentheses. */
  function NameWords(comm: string): seq<string> { SplitWhitespace("(" + comm + ")") }

  lemma {:induction false} TokenLengthStays(s: string, rest: string)
    requires rest != [] && IsSpace(rest[0])
    ensures TokenLength(s + rest) == TokenLength(s)
    decreases s
  {
    if s == [] {
      assert s + rest == rest;
    } else if !IsSpace(s[0]) {
      assert (s + rest)[1..] == s[1..] + rest;
      TokenLengthStays(s[1..], rest);
    }
  }

  lemma CutBefore(s: string, rest: string, n: nat)
    requires n <= |s|
    ensures (s + rest)[..n] == s[..n] && (s + rest)[n..] == s[n..] + rest
  {
  }

  /** A word ends where a space begins, so cutting there splits the words. */
  lemma {:induction false} SplitAtSpace(s: string, rest: string)
    requires rest != [] && IsSpace(rest[0])
    ensures SplitWhitespace(s + rest) == SplitWhitespace(s) + SplitWhitespace(rest)
    decreases |s|
  {
    if s == [] {
      assert s + rest == rest;
    } else if IsSpace(s[0]) {
      assert (s + rest)[1..] == s[1..] + rest;
      SplitAtSpace(s[1..], rest);
    } else {
      var n := TokenLength(s);
      TokenLengthStays(s, rest);
      CutBefore(s, rest, n);
      SplitAtSpace(s[n..], rest);
    }
  }

  lemma DigitsAreAWord(pid: nat, rest: string)
    ensures SplitWhitespace(Digits(pid) + (" " + rest)) == [Digits(pid)] + SplitWhitespace(rest)
  {
    DigitsRead(pid);
    forall i | 0 <= i < |Digits(pid)|
      ensures !IsSpace(Digits(pid)[i])
    {
      assert Digits(pid)[i] in Digits(pid);
    }
    SplitToken(Digits(pid), " " + rest);
    SplitSpace(rest);
  }

  lemma LineShape(pid: nat, comm: string, fields: seq<string>)
    ensures Line(pid, comm, fields) == Digits(pid) + (" " + (("(" + comm + ")") + Tail(fields)))
  {
  }

  lemma LineWords(pid: nat, comm: string, fields: seq<string>)
    requires AreTokens(fields)
    ensures SplitWhitespace(Line(pid, comm, fields)) == [Digits(pid)] + (NameWords(comm) + fields)
  {
    var name, tail := "(" + comm + ")", Tail(fields);
    TailShape(fields);
    TailSplits(fields);
    SplitAtSpace(name, tail);
    DigitsAreAWord(pid, name + tail);
    LineShape(pid, comm, fields);
  }

  lemma {:induction false} WordsAtMost(s: string)
    ensures |SplitWhitespace(s)| <= |s|
    decreases |s|
  {
    if s != [] {
      if IsSpace(s[0]) {
        WordsAtMost(s[1..]);
      } else {
        WordsAtMost(s[TokenLength(s)..]);
      }
    }
  }

  /** A name is one word exactly if it holds no whitespace. */
  lemma OneWordIff(comm: string)
    ensures |NameWords(comm)| >= 1
    ensures |NameWords(comm)| == 1 <==> forall c | c in comm :: !IsSpace(c)
  {
    var name := "(" + comm + ")";
    var n := TokenLength(name);
    assert name[0] == '(' && name[|name| - 1] == ')';
    if n < |name| {
      assert name[n] == comm[n - 1];
      assert comm[n - 1] in comm;
      HasWord(name[n..]);
    } else {
      forall c | c in comm
        ensures !IsSpace(c)
      {
        var i :| 0 <= i < |comm| && comm[i] == c;
        assert name[i + 1] == c;
      }
      assert name[n..] == [];
    }
  }

  lemma {:induction false} HasWord(s: string)
    requires s != [] && !IsSpace(s[|s| - 1])
    ensures SplitWhitespace(s) != []
    decreases |s|
  {
    if IsSpace(s[0]) {
      HasWord(s[1..]);
    }
  }

  /** What the real-time test looks at: with a name of `n` words, the field `n - 1` places before the policy. */
  lemma PolicyLooksAt(pid: nat, comm: string, fields: seq<string>)
    requires AreTokens(fields) && |fields| > POLICY && |comm| <= 15
    ensures var n := |NameWords(comm)|;
      1 <= n <= 17 && (RtScheduled(Line(pid, comm, fields)) <==> IsRtPolicy(fields[POLICY + 1 - n]))
  {
    LineWords(pid, comm, fields);
    OneWordIff(comm);
    WordsAtMost("(" + comm + ")");
  }

  /** The fields of some line that show an ordinary policy, but a 1 at place `i`. */
  function Decoy(i: nat): seq<string>
    requires i < POLICY
  {
    seq(POLICY + 1, k => if k == i then "1" else "0")
  }

  /** The real-time test reads the policy, whatever the line shows, exactly for names without whitespace; a name like
      "Isolated Web Co" makes it read the CPU number instead.  15 bytes is the longest name the kernel keeps. */
  lemma RtTestCorrectIff(pid: nat, comm: string)
    requires |comm| <= 15
    ensures (forall fields: seq<string> | AreTokens(fields) && |fields| > POLICY ::
               RtScheduled(Line(pid, comm, fields)) <==> IsRtPolicy(fields[POLICY])) <==>
            (forall c | c in comm :: !IsSpace(c))
  {
    OneWordIff(comm);
    var n := |NameWords(comm)|;
    if n == 1 {
      forall fields: seq<string> | AreTokens(fields) && |fields| > POLICY
        ensures RtScheduled(Line(pid, comm, fields)) <==> IsRtPolicy(fields[POLICY])
      {
        PolicyLooksAt(pid, comm, fields);
      }
    } else {
      WordsAtMost("(" + comm + ")");
      var fields := Decoy(POLICY + 1 - n);
      PolicyLooksAt(pid, comm, fields);
      assert fields[POLICY + 1 - n] == "1" && fields[POLICY] == "0";
      assert !(RtScheduled(Line(pid, comm, fields)) <==> IsRtPolicy(fields[POLICY]));
    }
  }
}
