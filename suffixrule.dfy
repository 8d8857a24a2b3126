/**
 * The file-selection rule the notifier's tests rely on: a directory is
 * watched for a list of suffixes, a suffix without a leading dot gets one,
 * matching ignores ASCII case, and hidden files (a leading dot) never match.
 * This is one concrete instance of the abstract per-directory matcher.
 */
module SuffixRule {
  import FileNotify
  import Paths
  import Debounce

  function LowerChar(c: char): (d: char)
    ensures 'A' <= c <= 'Z' ==> d as int == c as int + 32
    ensures !('A' <= c <= 'Z') ==> d == c
  {
    if 'A' <= c <= 'Z' then (c as int + 32) as char else c
  }

  /** ASCII lower-casing, character by character. */
  function Lower(s: string): (t: string)
    ensures |t| == |s| && forall i :: 0 <= i < |s| ==> t[i] == LowerChar(s[i])
  {
    if s == [] then [] else [LowerChar(s[0])] + Lower(s[1..])
  }

  /** A suffix given without its dot ("txt") stands for ".txt". */
  function Normalize(suffix: string): (n: string)
    ensures |n| > 0 && n[0] == '.'
    ensures suffix != [] && suffix[0] == '.' ==> n == suffix
    ensures !(suffix != [] && suffix[0] == '.') ==> n == "." + suffix
  {
    if suffix != [] && suffix[0] == '.' then suffix else "." + suffix
  }

  predicate EndsWith(s: string, suffix: string)
  {
    |suffix| <= |s| && s[|s| - |suffix|..] == suffix
  }

  /** Whether a base name qualifies under a list of suffixes. */
  predicate SuffixMatch(suffixes: seq<string>, base: string)
  {
    !(base != [] && base[0] == '.') &&
    exists i :: 0 <= i < |suffixes| && EndsWith(Lower(base), Lower(Normalize(suffixes[i])))
  }

  function Matcher(suffixes: seq<string>): FileNotify.Matcher
  {
    base => SuffixMatch(suffixes, base)
  }

  /** Lower-casing is idempotent. */
  lemma LowerIdempotent(s: string)
    ensures Lower(Lower(s)) == Lower(s)
  {
  }

  /** A base name that is not hidden and ends with a dotted suffix is selected by that suffix. */
  lemma EndsWithSelected(suffix: string, base: string)
    requires suffix != [] && suffix[0] == '.' && EndsWith(base, suffix)
    requires !(base != [] && base[0] == '.')
    ensures SuffixMatch([suffix], base)
  {
    var lb := Lower(base);
    assert lb[|lb| - |suffix|..] == Lower(suffix);
    assert [suffix][0] == suffix;
  }

  /** Matching ignores case in the base name and in the suffix. */
  lemma CaseInsensitive(suffixes: seq<string>, base: string, base': string)
    requires Lower(base) == Lower(base')
    ensures SuffixMatch(suffixes, base) <==> SuffixMatch(suffixes, base')
  {
    if base != [] {
      assert Lower(base)[0] == LowerChar(base[0]) && Lower(base')[0] == LowerChar(base'[0]);
    }
  }

  /** A suffix with or without its leading dot selects the same files ("txt" and ".txt"). */
  lemma DotOptional(suffix: string, base: string)
    requires !(suffix != [] && suffix[0] == '.')
    ensures SuffixMatch([suffix], base) <==> SuffixMatch(["." + suffix], base)
  {
    var dotted := "." + suffix;
    assert dotted[0] == '.';
    assert Normalize(dotted) == Normalize(suffix);
    assert [dotted][0] == dotted && [suffix][0] == suffix;
    assert SuffixMatch([suffix], base) <==> !(base != [] && base[0] == '.') && EndsWith(Lower(base), Lower(Normalize(suffix)));
    assert SuffixMatch([dotted], base) <==> !(base != [] && base[0] == '.') && EndsWith(Lower(base), Lower(Normalize(dotted)));
  }

  /** A hidden file never matches, whatever the suffixes. */
  lemma HiddenNeverMatches(suffixes: seq<string>, base: string)
    requires base != [] && base[0] == '.'
    ensures !Matcher(suffixes)(base)
  {
  }

  /** With no suffixes nothing matches. */
  lemma NoSuffixesNoMatch(base: string)
    ensures !SuffixMatch([], base)
  {
  }

  const DirA: string := "/tmp/a"
  const DirB: string := "/tmp/b"

  /** The two directories of the notifier tests: HTML files in one, text files in the other. */
  function TestTable(): map<FileNotify.Path, FileNotify.Matcher>
  {
    map[DirA := Matcher([".html"]), DirB := Matcher(["txt"])]
  }

  /** A write to a file in a directory, followed by a timer tick that lets the flush go out. */
  function WriteThenTick(dir: string, base: string): seq<FileNotify.Input>
  {
    [FileNotify.FileEvent(FileNotify.FsEvent(Paths.Join(dir, base), {FileNotify.Write})), FileNotify.TimerTick]
  }

  /** A write to a registered directory followed by a tick: one Event when the base name matches, then the Tick. */
  lemma {:induction false} PulsesOfWriteThenTick(table: map<FileNotify.Path, FileNotify.Matcher>, dir: string, base: string, rest: seq<FileNotify.Input>)
    requires dir != "" && dir != "/" && dir in table
    requires forall j :: 0 <= j < |base| ==> base[j] != '/'
    ensures table[dir](base) ==>
      FileNotify.Pulses(table, WriteThenTick(dir, base) + rest) == [Debounce.Event, Debounce.Tick] + FileNotify.Pulses(table, rest)
    ensures !table[dir](base) ==>
      FileNotify.Pulses(table, WriteThenTick(dir, base) + rest) == [Debounce.Tick] + FileNotify.Pulses(table, rest)
  {
    Paths.DirBaseOfJoin(dir, base);
    var inputs := WriteThenTick(dir, base) + rest;
    assert inputs[1..][1..] == rest;
    assert inputs[1..][0] == FileNotify.TimerTick;
  }

  /** The six writes of the notifier test, as (directory, base name) pairs, in the order it makes them. */
  const TestWrites: seq<(string, string)> := [
    (DirA, ".newfile.html"), (DirA, "abc.html"), (DirA, "abc.HTML"),
    (DirA, ".hidden.HTML"), (DirB, "abctxt"), (DirB, "ABC.txt")]

  /** Each write followed by a tick that lets the flush go out. */
  function InputsOf(ws: seq<(string, string)>): seq<FileNotify.Input>
  {
    if ws == [] then [] else WriteThenTick(ws[0].0, ws[0].1) + InputsOf(ws[1..])
  }

  /** The pulses expected for writes whose selection flags are given, each write followed by a tick. */
  function ExpectedPulses(selected: seq<bool>): seq<Debounce.Pulse>
  {
    if selected == [] then []
    else (if selected[0] then [Debounce.Event, Debounce.Tick] else [Debounce.Tick]) + ExpectedPulses(selected[1..])
  }

  /** Writes to registered directories, each followed by a tick, reach the flush goroutine as their matchers decide. */
  lemma {:induction false} PulsesOfWrites(table: map<FileNotify.Path, FileNotify.Matcher>, ws: seq<(string, string)>, selected: seq<bool>)
    requires |selected| == |ws|
    requires forall i :: 0 <= i < |ws| ==> ws[i].0 != "" && ws[i].0 != "/" && ws[i].0 in table
    requires forall i, j :: 0 <= i < |ws| && 0 <= j < |ws[i].1| ==> ws[i].1[j] != '/'
    requires forall i :: 0 <= i < |ws| ==> selected[i] == table[ws[i].0](ws[i].1)
    ensures FileNotify.Pulses(table, InputsOf(ws)) == ExpectedPulses(selected)
  {
    if ws != [] {
      assert forall i :: 0 <= i < |ws| - 1 ==> ws[1..][i] == ws[i + 1] && selected[1..][i] == selected[i + 1];
      PulsesOfWrites(table, ws[1..], selected[1..]);
      PulsesOfWriteThenTick(table, ws[0].0, ws[0].1, InputsOf(ws[1..]));
    }
  }

  /** With a single suffix the existential has one witness to consider. */
  lemma SingleSuffix(suffix: string, base: string)
    ensures SuffixMatch([suffix], base) <==>
      !(base != [] && base[0] == '.') && EndsWith(Lower(base), Lower(Normalize(suffix)))
  {
    var ss := [suffix];
    assert ss[0] == suffix;
    if EndsWith(Lower(base), Lower(Normalize(suffix))) {
      assert EndsWith(Lower(base), Lower(Normalize(ss[0])));
    }
  }

  /** The matchers of the two test directories. */
  lemma TestMatchers(base: string)
    ensures TestTable()[DirA](base) == SuffixMatch([".html"], base)
    ensures TestTable()[DirB](base) == SuffixMatch(["txt"], base)
  {
    assert DirA != DirB by { assert DirA[5] != DirB[5]; }
  }

  lemma LowerHtml()
    ensures Lower(".html") == ".html" && Lower("abc.html") == "abc.html" && Lower("abc.HTML") == "abc.html"
  {
    assert Lower(".html") == ".html";
    assert Lower("abc.html") == "abc.html";
    assert Lower("abc.HTML") == "abc.html";
  }

  lemma LowerTxt()
    ensures Lower(".txt") == ".txt" && Lower("abctxt") == "abctxt" && Lower("ABC.txt") == "abc.txt"
  {
    assert Lower(".txt") == ".txt";
    assert Lower("abctxt") == "abctxt";
    assert Lower("ABC.txt") == "abc.txt";
  }

  /** The HTML directory selects "abc.html" and "abc.HTML" but neither hidden file. */
  lemma HtmlFilesSelected()
    ensures !TestTable()[DirA](".newfile.html")
    ensures TestTable()[DirA]("abc.html")
    ensures TestTable()[DirA]("abc.HTML")
    ensures !TestTable()[DirA](".hidden.HTML")
  {
    TestMatchers(".newfile.html");
    TestMatchers("abc.html");
    TestMatchers("abc.HTML");
    TestMatchers(".hidden.HTML");
    LowerHtml();
    SingleSuffix(".html", "abc.html");
    SingleSuffix(".html", "abc.HTML");
    assert Normalize(".html") == ".html";
    assert "abc.html"[3..] == ".html";
  }

  /** The text directory selects "ABC.txt" but not "abctxt", which lacks the dot. */
  lemma TxtFilesSelected()
    ensures !TestTable()[DirB]("abctxt")
    ensures TestTable()[DirB]("ABC.txt")
  {
    TestMatchers("abctxt");
    TestMatchers("ABC.txt");
    LowerTxt();
    SingleSuffix("txt", "abctxt");
    SingleSuffix("txt", "ABC.txt");
    assert Normalize("txt") == ".txt";
    assert "abctxt"[2..] != ".txt" by { assert "abctxt"[2..][0] != '.'; }
    assert "abc.txt"[3..] == ".txt";
  }

  /** Every test write goes to a registered directory and names a plain base name. */
  lemma TestWritesRegistered()
    ensures forall i :: 0 <= i < |TestWrites| ==>
      TestWrites[i].0 != "" && TestWrites[i].0 != "/" && TestWrites[i].0 in TestTable()
    ensures forall i, j :: 0 <= i < |TestWrites| && 0 <= j < |TestWrites[i].1| ==> TestWrites[i].1[j] != '/'
  {
  }

  /** Which of the six test writes the suffix rule selects. */
  const TestSelected: seq<bool> := [false, true, true, false, false, true]

  lemma TestWritesSelected()
    ensures forall i :: 0 <= i < |TestWrites| ==> TestSelected[i] == TestTable()[TestWrites[i].0](TestWrites[i].1)
  {
    var ws := TestWrites;
    forall i | 0 <= i < |ws| ensures TestSelected[i] == TestTable()[ws[i].0](ws[i].1) {
      if i < 4 {
        HtmlFilesSelected();
        if i == 0 { assert ws[0] == (DirA, ".newfile.html"); }
        else if i == 1 { assert ws[1] == (DirA, "abc.html"); }
        else if i == 2 { assert ws[2] == (DirA, "abc.HTML"); }
        else { assert ws[3] == (DirA, ".hidden.HTML"); }
      } else {
        TxtFilesSelected();
        if i == 4 { assert ws[4] == (DirB, "abctxt"); }
        else { assert ws[5] == (DirB, "ABC.txt"); }
      }
    }
  }

  lemma TestSelectedPulses()
    ensures ExpectedPulses(TestSelected)
         == [Debounce.Tick, Debounce.Event, Debounce.Tick, Debounce.Event, Debounce.Tick,
             Debounce.Tick, Debounce.Tick, Debounce.Event, Debounce.Tick]
  {
  }

  /** The pulses the flush goroutine receives for the six test writes. */
  lemma TestPulses()
    ensures FileNotify.Pulses(TestTable(), InputsOf(TestWrites))
         == [Debounce.Tick, Debounce.Event, Debounce.Tick, Debounce.Event, Debounce.Tick,
             Debounce.Tick, Debounce.Tick, Debounce.Event, Debounce.Tick]
  {
    TestWritesRegistered();
    TestWritesSelected();
    PulsesOfWrites(TestTable(), TestWrites, TestSelected);
    TestSelectedPulses();
  }

  /** The refresh signals of the debouncer for the test's pulses. */
  lemma TestRefreshSignals()
    ensures Debounce.Refreshes(false, [Debounce.Tick, Debounce.Event, Debounce.Tick, Debounce.Event, Debounce.Tick,
                                       Debounce.Tick, Debounce.Tick, Debounce.Event, Debounce.Tick])
         == [false, false, true, false, true, false, false, false, true]
  {
    var E, T := Debounce.Event, Debounce.Tick;
    var ps := [T, E, T, E, T, T, T, E, T];
    var out := [false, false, true, false, true, false, false, false, true];
    forall i | 0 <= i < |ps| ensures Debounce.Refreshes(false, ps)[i] == out[i] {
      Debounce.RefreshAt(false, ps, i);
    }
  }

  /** Three of those signals are sent. */
  lemma TestSentCount()
    ensures Debounce.CountSent([false, false, true, false, true, false, false, false, true]) == 3
  {
    var out := [false, false, true, false, true, false, false, false, true];
    assert out[9..] == [];
    assert Debounce.CountSent(out[8..]) == 1;
    assert Debounce.CountSent(out[7..]) == 1 by { assert out[7..][1..] == out[8..]; }
    assert Debounce.CountSent(out[6..]) == 1 by { assert out[6..][1..] == out[7..]; }
    assert Debounce.CountSent(out[5..]) == 1 by { assert out[5..][1..] == out[6..]; }
    assert Debounce.CountSent(out[4..]) == 2 by { assert out[4..][1..] == out[5..]; }
    assert Debounce.CountSent(out[3..]) == 2 by { assert out[3..][1..] == out[4..]; }
    assert Debounce.CountSent(out[2..]) == 3 by { assert out[2..][1..] == out[3..]; }
    assert Debounce.CountSent(out[1..]) == 3 by { assert out[1..][1..] == out[2..]; }
  }

  /** The notifier test's count: three refresh signals for its six writes. */
  lemma TestRefreshCount()
    ensures Debounce.CountSent(Debounce.Refreshes(false, FileNotify.Pulses(TestTable(), InputsOf(TestWrites)))) == 3
  {
    TestPulses();
    TestRefreshSignals();
    TestSentCount();
  }
}
