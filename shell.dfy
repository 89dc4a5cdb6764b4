/** The shell's command parser and dispatcher (src/user/shell.rs).

    `Command::parse` trims the input the way `str::trim` does (Unicode
    White_Space on both ends) and matches four command words; the shell
    object keeps a `running` flag that only `exit` clears.  `create` asks
    the scheduler for a process with a 4096-byte stack; the scheduler and
    the allocator are passed in where the source uses its globals. */
module Shell {
  import opened Wrappers
  import opened Memory
  import opened Process

  /** The stack size `create` asks for. */
  const CREATE_STACK_SIZE: nat := 4096

  datatype Command = Help | List | Create | Exit | Unknown(text: string)

  /** Unicode's White_Space property, which `str::trim` strips. */
  predicate IsWhitespace(c: char) {
    var u := c as int;
    (0x09 <= u <= 0x0D) || u == 0x20 || u == 0x85 || u == 0xA0 || u == 0x1680 ||
    (0x2000 <= u <= 0x200A) || u == 0x2028 || u == 0x2029 || u == 0x202F || u == 0x205F || u == 0x3000
  }

  predicate AllWhitespace(s: string) {
    forall i :: 0 <= i < |s| ==> IsWhitespace(s[i])
  }

  /** `str::trim_start`. */
  function TrimStart(s: string): (r: string)
    ensures |r| <= |s| && r == s[|s| - |r|..]
    ensures AllWhitespace(s[..|s| - |r|])
    ensures r != [] ==> !IsWhitespace(r[0])
    decreases |s|
  {
    if s != [] && IsWhitespace(s[0]) then TrimStart(s[1..]) else s
  }

  /** `str::trim_end`. */
  function TrimEnd(s: string): (r: string)
    ensures |r| <= |s| && r == s[..|r|]
    ensures AllWhitespace(s[|r|..])
    ensures r != [] ==> !IsWhitespace(r[|r| - 1])
    decreases |s|
  {
    if s != [] && IsWhitespace(s[|s| - 1]) then
      var r := TrimEnd(s[..|s| - 1]);
      assert s[|r|..] == s[..|s| - 1][|r|..] + [s[|s| - 1]];
      r
    else s
  }

  /** `str::trim`. */
  function Trim(s: string): (r: string)
    ensures r != [] ==> !IsWhitespace(r[0]) && !IsWhitespace(r[|r| - 1])
  {
    TrimEnd(TrimStart(s))
  }

  /** Whitespace in front of a string is stripped away by `trim_start`. */
  lemma {:induction false} TrimStartSkipsPrefix(w: string, s: string)
    requires AllWhitespace(w)
    ensures TrimStart(w + s) == TrimStart(s)
    decreases |w|
  {
    if w == [] {
      assert w + s == s;
    } else {
      assert (w + s)[1..] == w[1..] + s;
      TrimStartSkipsPrefix(w[1..], s);
    }
  }

  /** Whitespace after a string is stripped away by `trim_end`. */
  lemma {:induction false} TrimEndSkipsSuffix(s: string, w: string)
    requires AllWhitespace(w)
    ensures TrimEnd(s + w) == TrimEnd(s)
    decreases |w|
  {
    if w == [] {
      assert s + w == s;
    } else {
      var last := |s + w| - 1;
      assert (s + w)[..last] == s + w[..|w| - 1];
      TrimEndSkipsSuffix(s, w[..|w| - 1]);
    }
  }

  /** `trim_start` of a string followed by text: the text survives unless
      the whole string is whitespace. */
  lemma {:induction false} TrimStartAppend(s: string, t: string)
    ensures TrimStart(s + t) == if AllWhitespace(s) then TrimStart(t) else TrimStart(s) + t
    decreases |s|
  {
    if s == [] {
      assert s + t == t;
    } else {
      assert (s + t)[1..] == s[1..] + t;
      assert (s + t)[0] == s[0];
      if IsWhitespace(s[0]) {
        TrimStartAppend(s[1..], t);
        assert AllWhitespace(s) <==> AllWhitespace(s[1..]);
      } else {
        assert !AllWhitespace(s);
      }
    }
  }

  /** Trimming twice is trimming once. */
  lemma TrimIdempotent(s: string)
    ensures Trim(Trim(s)) == Trim(s)
  {
  }

  /** Whitespace around a string does not change what it trims to. */
  lemma TrimIgnoresSurroundingWhitespace(w1: string, s: string, w2: string)
    requires AllWhitespace(w1) && AllWhitespace(w2)
    ensures Trim(w1 + s + w2) == Trim(s)
  {
    assert w1 + s + w2 == w1 + (s + w2);
    TrimStartSkipsPrefix(w1, s + w2);
    TrimStartAppend(s, w2);
    if AllWhitespace(s) {
      assert AllWhitespace(s + w2);
      assert TrimStart(w2) == [];
      assert TrimStart(s) == [];
    } else {
      TrimEndSkipsSuffix(TrimStart(s), w2);
    }
  }

  /** `Command::parse`: exactly the four command words, after trimming,
      name a command; blank input is `Unknown("")` and anything else is
      `Unknown("unknown")`, the input itself being dropped. */
  function Parse(input: string): (c: Command)
    ensures c == Help <==> Trim(input) == "help"
    ensures c == List <==> Trim(input) == "list"
    ensures c == Create <==> Trim(input) == "create"
    ensures c == Exit <==> Trim(input) == "exit"
    ensures c.Unknown? ==> c.text == if Trim(input) == "" then "" else "unknown"
  {
    var word := Trim(input);
    if word == "help" then Help
    else if word == "list" then List
    else if word == "create" then Create
    else if word == "exit" then Exit
    else if word == "" then Unknown("")
    else Unknown("unknown")
  }

  /** Whitespace around a command does not change how it parses. */
  lemma ParseIgnoresSurroundingWhitespace(w1: string, s: string, w2: string)
    requires AllWhitespace(w1) && AllWhitespace(w2)
    ensures Parse(w1 + s + w2) == Parse(s)
  {
    TrimIgnoresSurroundingWhitespace(w1, s, w2);
  }

  /** The word "exit" between any whitespace is the exit command. */
  lemma PaddedExitParses(w1: string, w2: string)
    requires AllWhitespace(w1) && AllWhitespace(w2)
    ensures Parse(w1 + "exit" + w2) == Exit
  {
    var word := "exit";
    assert word[0] == 'e' && word[|word| - 1] == 't';
    TrimKeepsWord(word);
    assert Parse(word) == Exit;
    ParseIgnoresSurroundingWhitespace(w1, word, w2);
  }

  /** A string that starts and ends with non-whitespace trims to itself. */
  lemma TrimKeepsWord(s: string)
    requires s != [] && !IsWhitespace(s[0]) && !IsWhitespace(s[|s| - 1])
    ensures Trim(s) == s
  {
    assert TrimStart(s) == s;
  }

  /** "exit now" is not: the whole trimmed line must be the word. */
  lemma ParseExitWithArgument()
    ensures Parse("exit now") == Unknown("unknown")
  {
    assert TrimStart("exit now") == "exit now";
    assert TrimEnd("exit now") == "exit now";
  }

  /** A blank line parses to the empty unknown command. */
  lemma ParseBlankLine()
    ensures Parse(" \t ") == Unknown("")
  {
    assert AllWhitespace(" \t ");
    TrimStartSkipsPrefix(" \t ", "");
    assert " \t " + "" == " \t ";
  }

  /** The shell. */
  class Shell {
    var running: bool

    /** `Shell::new`. */
    constructor ()
      ensures running
    {
      running := true;
    }

    /** `execute_command`: only `exit` stops the shell; `create` runs the
        scheduler's `create_process` with a 4096-byte stack; every other
        command only prints. */
    method ExecuteCommand(input: string, sched: Scheduler, alloc: Allocator)
      requires sched.processes.Length == SLOTS && alloc.Valid()
      modifies this, sched, sched.processes, alloc
      ensures alloc.Valid()
      ensures running == (old(running) && Parse(input) != Exit)
      ensures Parse(input) == Create ==>
                var (s', h', _) := CreateStep(old(sched.State()), old(alloc.State()), CREATE_STACK_SIZE);
                sched.State() == s' && alloc.State() == h'
      ensures Parse(input) != Create ==>
                sched.State() == old(sched.State()) && alloc.State() == old(alloc.State())
    {
      var command := Parse(input);
      match command
      case Help =>
      case List =>
      case Create =>
        var _ := sched.CreateProcess(CREATE_STACK_SIZE, alloc);
      case Exit =>
        running := false;
      case Unknown(_) =>
    }
  }
}
