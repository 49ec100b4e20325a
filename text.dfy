/**
 * The pure string functions of the command handler: tokenising a message
 * with a single-character separator (JavaScript's `split`), joining lines
 * back (`join`), the command keyword and its argument, the decimal
 * rendering of a position, and the numbered queue listing.
 */
module Text {
  import opened Options

  /** `parts.join([sep])`: the pieces with one separator between neighbours. */
  function Join(parts: seq<string>, sep: char): (s: string)
    ensures |parts| >= 1 ==> parts[0] <= s
    ensures |parts| >= 2 ==> |parts[0]| < |s| && s[|parts[0]|] == sep
    ensures |parts| == 1 ==> s == parts[0]
  {
    if |parts| == 0 then ""
    else if |parts| == 1 then parts[0]
    else parts[0] + [sep] + Join(parts[1..], sep)
  }

  /** `s.split(sep)`: the maximal separator-free pieces of `s`, in order. */
  function Split(s: string, sep: char): (parts: seq<string>)
    ensures |parts| >= 1
    ensures forall i :: 0 <= i < |parts| ==> sep !in parts[i]
    ensures Join(parts, sep) == s
    decreases |s|
  {
    if |s| == 0 then [""]
    else if s[0] == sep then
      var rest := Split(s[1..], sep);
      assert s == [sep] + s[1..];
      [""] + rest
    else
      var rest := Split(s[1..], sep);
      var parts := [[s[0]] + rest[0]] + rest[1..];
      assert parts[1..] == rest[1..];
      assert s == [s[0]] + s[1..];
      parts
  }

  /** Splitting a string that starts with a separator-free piece and a separator. */
  lemma {:induction false} SplitPrefix(a: string, b: string, sep: char)
    requires sep !in a
    ensures Split(a + [sep] + b, sep) == [a] + Split(b, sep)
    decreases |a|
  {
    if |a| == 0 {
      assert a + [sep] + b == [sep] + b;
      assert ([sep] + b)[1..] == b;
    } else {
      var s := a + [sep] + b;
      assert s[1..] == a[1..] + [sep] + b;
      SplitPrefix(a[1..], b, sep);
      assert [a[0]] + a[1..] == a;
    }
  }

  /** A separator-free string splits into itself alone. */
  lemma {:induction false} SplitNoSeparator(a: string, sep: char)
    requires sep !in a
    ensures Split(a, sep) == [a]
    decreases |a|
  {
    if |a| > 0 {
      SplitNoSeparator(a[1..], sep);
      assert [a[0]] + a[1..] == a;
    }
  }

  /** Split undoes Join whenever no piece contains the separator. */
  lemma {:induction false} SplitJoin(parts: seq<string>, sep: char)
    requires |parts| >= 1
    requires forall i :: 0 <= i < |parts| ==> sep !in parts[i]
    ensures Split(Join(parts, sep), sep) == parts
    decreases |parts|
  {
    if |parts| == 1 {
      SplitNoSeparator(parts[0], sep);
    } else {
      SplitJoin(parts[1..], sep);
      SplitPrefix(parts[0], Join(parts[1..], sep), sep);
      assert [parts[0]] + parts[1..] == parts;
    }
  }

  /** `args[0]` of `content.split(' ')`: the text before the first space. */
  function Command(content: string): (cmd: string)
    ensures ' ' !in cmd
    ensures cmd <= content
    ensures |cmd| == |content| || content[|cmd|] == ' '
  {
    Split(content, ' ')[0]
  }

  /**
   * `args[1]` of `content.split(' ')`: absent (JavaScript's undefined) when
   * the content has no space, otherwise the text between the first space and
   * the next space or the end.
   */
  function Argument(content: string): (arg: Option<string>)
    ensures arg.None? <==> ' ' !in content
    ensures arg.Some? ==>
      var rest := content[|Command(content)| + 1..];
      ' ' !in arg.value && arg.value <= rest &&
      (|arg.value| == |rest| || rest[|arg.value|] == ' ')
  {
    var parts := Split(content, ' ');
    if |parts| > 1 then
      var rest := content[|parts[0]| + 1..];
      assert Join(parts, ' ') == parts[0] + [' '] + Join(parts[1..], ' ');
      assert rest == Join(parts[1..], ' ');
      Some(parts[1])
    else
      None
  }

  /** A message of the form `keyword arg...` has that keyword and argument. */
  lemma CommandArgument(keyword: string, arg: string, tail: string)
    requires ' ' !in keyword && ' ' !in arg
    ensures Command(keyword + " " + arg + tail) == keyword
    ensures tail == [] || tail[0] == ' ' ==> Argument(keyword + " " + arg + tail) == Some(arg)
  {
    var content := keyword + " " + arg + tail;
    assert content == keyword + [' '] + (arg + tail);
    SplitPrefix(keyword, arg + tail, ' ');
    if tail == [] {
      assert arg + tail == arg;
      SplitNoSeparator(arg, ' ');
    } else if tail[0] == ' ' {
      assert arg + tail == arg + [' '] + tail[1..];
      SplitPrefix(arg, tail[1..], ' ');
    }
  }

  /** The digit character for `d`. */
  function Digit(d: nat): (c: char)
    requires d < 10
    ensures '0' <= c <= '9' && c as int - '0' as int == d
  {
    ('0' as int + d) as char
  }

  predicate IsDigits(s: string)
  {
    forall i :: 0 <= i < |s| ==> '0' <= s[i] <= '9'
  }

  /** `${n}` for a natural number: its decimal digits, without leading zeros. */
  function DecimalString(n: nat): (s: string)
    ensures |s| >= 1 && IsDigits(s)
    ensures s[0] == '0' ==> n == 0
    decreases n
  {
    if n < 10 then [Digit(n)] else DecimalString(n / 10) + [Digit(n % 10)]
  }

  /** The number a string of decimal digits denotes. */
  function DecimalValue(s: string): (n: nat)
    requires IsDigits(s)
    decreases |s|
  {
    if |s| == 0 then 0
    else DecimalValue(s[..|s| - 1]) * 10 + (s[|s| - 1] as int - '0' as int)
  }

  /** DecimalValue reads back what DecimalString writes. */
  lemma {:induction false} DecimalRoundTrip(n: nat)
    ensures DecimalValue(DecimalString(n)) == n
    decreases n
  {
    var s := DecimalString(n);
    if n >= 10 {
      DecimalRoundTrip(n / 10);
      assert s[..|s| - 1] == DecimalString(n / 10);
    }
  }

  /** Line `i` of the listing: the 1-based position, a dot, a space and the title. */
  function NumberedLine(position: nat, title: string): (line: string)
    ensures '\n' !in title ==> '\n' !in line
  {
    DecimalString(position) + ". " + title
  }

  /** `titles.map((t, index) => `${index + 1}. ${t}`)`. */
  function NumberedLines(titles: seq<string>): (lines: seq<string>)
    ensures |lines| == |titles|
    ensures forall i :: 0 <= i < |titles| ==>
      DecimalString(i + 1) <= lines[i] && |titles[i]| < |lines[i]| &&
      lines[i][|lines[i]| - |titles[i]|..] == titles[i]
    ensures forall i :: 0 <= i < |titles| && '\n' !in titles[i] ==> '\n' !in lines[i]
  {
    seq(|titles|, i requires 0 <= i < |titles| => NumberedLine(i + 1, titles[i]))
  }

  /** `...map(...).join('\n')`. */
  function Listing(titles: seq<string>): (s: string)
    ensures titles == [] ==> s == ""
    ensures |titles| == 1 ==> s == "1. " + titles[0]
    ensures |titles| >= 2 ==> "1. " + titles[0] + "\n" <= s
  {
    Join(NumberedLines(titles), '\n')
  }

  /**
   * The listing has exactly one line per title, in queue order, line k
   * (from 0) being `k+1` in decimal, ". " and the k-th title; splitting the
   * listing at newlines recovers those lines when no title holds a newline.
   */
  lemma ListingLines(titles: seq<string>)
    requires |titles| >= 1
    requires forall i :: 0 <= i < |titles| ==> '\n' !in titles[i]
    ensures |Split(Listing(titles), '\n')| == |titles|
    ensures forall k :: 0 <= k < |titles| ==>
      Split(Listing(titles), '\n')[k] == DecimalString(k + 1) + ". " + titles[k]
  {
    var lines := NumberedLines(titles);
    forall i | 0 <= i < |lines| ensures '\n' !in lines[i] {
      assert lines[i] == NumberedLine(i + 1, titles[i]);
    }
    SplitJoin(lines, '\n');
  }
}
