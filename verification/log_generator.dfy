/**
 * The test log producer: it formats one line per tick and writes it to a
 * per-level file, truncating the file once it has reached a size limit.
 * Randomness, the clock and the file system are parameters: the level
 * index, the timestamp, the message, and the result of `stat` on the file.
 */
module LogGenerator {
  import opened Basics

  /** Size in bytes at or above which the next write truncates the file. */
  const MAX_LOG_SIZE: nat := 2 * 1024

  const LOG_LEVELS: seq<string> := ["INFO", "WARNING", "ERROR", "DEBUG"]

  /** A generated entry: its level and the full line to write. */
  datatype LogEntry = LogEntry(level: string, entry: string)

  /** The three fields of one log line. */
  datatype Fields = Fields(timestamp: string, level: string, message: string)

  /** `<timestamp> [<LEVEL>] <message>` followed by a newline. */
  function FormatEntry(timestamp: string, level: string, message: string): (r: string)
    ensures |r| == |timestamp| + |level| + |message| + 5
    ensures r[..|timestamp|] == timestamp && r[|timestamp|..|timestamp| + 2] == " ["
    ensures r[|timestamp| + 2..|timestamp| + 2 + |level|] == level
    ensures r[|timestamp| + 2 + |level|..|timestamp| + 4 + |level|] == "] "
    ensures r[|timestamp| + 4 + |level|..|r| - 1] == message
    ensures r[|r| - 1] == '\n'
  {
    timestamp + " [" + level + "] " + message + "\n"
  }

  /**
   * One entry for level `LOG_LEVELS[levelIndex]`; the index is the floor of a
   * uniform draw scaled by the number of levels.
   */
  function GenerateLogEntry(levelIndex: nat, timestamp: string, message: string): (r: LogEntry)
    requires levelIndex < |LOG_LEVELS|
    ensures r.level == LOG_LEVELS[levelIndex]
    ensures r.level in LOG_LEVELS
    ensures r.entry == FormatEntry(timestamp, r.level, message)
    ensures |r.entry| > 0 && r.entry[|r.entry| - 1] == '\n'
    ensures ' ' !in timestamp && '\n' !in timestamp && '\n' !in message ==>
      ParseEntry(r.entry) == Some(Fields(timestamp, r.level, message))
  {
    var level := LOG_LEVELS[levelIndex];
    var entry := FormatEntry(timestamp, level, message);
    if ' ' !in timestamp && '\n' !in timestamp && '\n' !in message then
      FormatThenParse(timestamp, level, message);
      LogEntry(level, entry)
    else
      LogEntry(level, entry)
  }

  /** The first level in `levels` whose `[<LEVEL>] ` opens `rest`. */
  function MatchLevel(rest: string, levels: seq<string>): (r: Option<string>)
    ensures r.Some? ==> r.value in levels && "[" + r.value + "] " <= rest
    ensures r.None? ==> forall l | l in levels :: !("[" + l + "] " <= rest)
  {
    if |levels| == 0 then None
    else if "[" + levels[0] + "] " <= rest then Some(levels[0])
    else MatchLevel(rest, levels[1..])
  }

  /**
   * Reads one line back: a timestamp up to the first space, a bracketed
   * known level, a space, the message, and a single final newline.
   */
  function ParseEntry(s: string): (r: Option<Fields>)
  {
    if |s| == 0 || s[|s| - 1] != '\n' || '\n' in s[..|s| - 1] then None
    else ParseLine(s[..|s| - 1], LOG_LEVELS)
  }

  /** The fields of one line without its newline, for the given levels. */
  function ParseLine(body: string, levels: seq<string>): (r: Option<Fields>)
  {
    match IndexOf(body, ' ')
    case None => None
    case Some(i) =>
      var rest := body[i + 1..];
      match MatchLevel(rest, levels)
      case None => None
      case Some(level) => Some(Fields(body[..i], level, rest[|level| + 3..]))
  }

  /** Bracketed words without `]` inside cannot be prefixes of each other. */
  lemma BracketedPrefixUnique(a: string, b: string, tail: string)
    requires ']' !in a && ']' !in b
    requires "[" + a + "] " <= "[" + b + "] " + tail
    ensures a == b
  {
    var x := "[" + a + "] ";
    var y := "[" + b + "] " + tail;
    var n := if |a| < |b| then |a| else |b|;
    assert x[1 + n] == y[1 + n];
    assert |a| == |b|;
    assert a == x[1..1 + |a|];
    assert b == y[1..1 + |b|];
  }

  lemma LevelsHaveNoBracket()
    ensures forall l | l in LOG_LEVELS :: ']' !in l && ' ' !in l && '\n' !in l
  {
  }

  lemma FormatLineParses(timestamp: string, level: string, message: string, levels: seq<string>)
    requires ' ' !in timestamp
    requires level in levels
    requires forall l | l in levels :: ']' !in l
    ensures ParseLine(timestamp + " " + ("[" + level + "] " + message), levels) == Some(Fields(timestamp, level, message))
  {
    var rest := "[" + level + "] " + message;
    var body := timestamp + " " + rest;
    assert body[|timestamp|] == ' ' && body[..|timestamp|] == timestamp;
    assert IndexOf(body, ' ') == Some(|timestamp|);
    assert body[|timestamp| + 1..] == rest;
    var m := MatchLevel(rest, levels);
    assert m.Some?;
    BracketedPrefixUnique(m.value, level, message);
    assert rest[|level| + 3..] == message;
  }

  lemma NoNewlineInLine(timestamp: string, level: string, message: string)
    requires '\n' !in timestamp && '\n' !in level && '\n' !in message
    ensures '\n' !in timestamp + " " + ("[" + level + "] " + message)
  {
  }

  /** Parsing a formatted entry gives back its fields. */
  lemma FormatThenParse(timestamp: string, level: string, message: string)
    requires ' ' !in timestamp && '\n' !in timestamp
    requires level in LOG_LEVELS
    requires '\n' !in message
    ensures ParseEntry(FormatEntry(timestamp, level, message)) == Some(Fields(timestamp, level, message))
  {
    LevelsHaveNoBracket();
    var body := timestamp + " " + ("[" + level + "] " + message);
    var s := FormatEntry(timestamp, level, message);
    FormatShape(timestamp, level, message);
    assert s[..|s| - 1] == body;
    NoNewlineInLine(timestamp, level, message);
    FormatLineParses(timestamp, level, message, LOG_LEVELS);
  }

  /** A formatted entry is the timestamp, a space, the bracketed level and message, a newline. */
  lemma FormatShape(timestamp: string, level: string, message: string)
    ensures FormatEntry(timestamp, level, message) == timestamp + " " + ("[" + level + "] " + message) + "\n"
  {
  }

  lemma ParseLineThenFormat(body: string, levels: seq<string>)
    requires ParseLine(body, levels).Some?
    ensures var f := ParseLine(body, levels).value;
            && body + "\n" == FormatEntry(f.timestamp, f.level, f.message)
            && f.level in levels
            && ' ' !in f.timestamp
  {
  }

  /** Every line that parses is exactly the formatting of what it parsed to. */
  lemma ParseThenFormat(s: string)
    requires ParseEntry(s).Some?
    ensures var f := ParseEntry(s).value;
            && s == FormatEntry(f.timestamp, f.level, f.message)
            && f.level in LOG_LEVELS
            && ' ' !in f.timestamp
            && forall j | 0 <= j < |s| - 1 :: s[j] != '\n'
  {
    var body := s[..|s| - 1];
    assert s == body + "\n";
    ParseLineThenFormat(body, LOG_LEVELS);
    forall j | 0 <= j < |s| - 1
      ensures s[j] != '\n'
    {
      assert s[j] == body[j];
    }
  }

  /** ASCII upper case to lower case; every other character unchanged. */
  function LowerChar(c: char): (r: char)
  {
    if 'A' <= c <= 'Z' then (c as int + 32) as char else c
  }

  /** `toLowerCase` restricted to ASCII letters. */
  function ToLower(s: string): (r: string)
    ensures |r| == |s|
    ensures forall i | 0 <= i < |s| :: r[i] == LowerChar(s[i])
  {
    if |s| == 0 then "" else [LowerChar(s[0])] + ToLower(s[1..])
  }

  predicate NoLowercase(s: string)
  {
    forall i | 0 <= i < |s| :: !('a' <= s[i] <= 'z')
  }

  /** `path.join(LOG_DIR, <level lower-cased>.log)`. */
  function LogPath(logDir: string, level: string): (r: string)
    ensures |r| == |logDir| + |level| + 5
    ensures r[..|logDir| + 1] == logDir + "/"
    ensures r[|logDir| + 1..|r| - 4] == ToLower(level)
    ensures r[|r| - 4..] == ".log"
  {
    logDir + "/" + ToLower(level) + ".log"
  }

  /** Levels without lower-case letters, in particular the four used, write distinct files. */
  lemma DistinctLevelsDistinctFiles(logDir: string, l1: string, l2: string)
    requires NoLowercase(l1) && NoLowercase(l2)
    requires l1 != l2
    ensures LogPath(logDir, l1) != LogPath(logDir, l2)
  {
  }

  /** The four level files are four different files. */
  lemma LogLevelFilesDistinct(logDir: string)
    ensures forall i, j | 0 <= i < j < |LOG_LEVELS| :: LogPath(logDir, LOG_LEVELS[i]) != LogPath(logDir, LOG_LEVELS[j])
  {
  }

  /** What `fs.stat` reports: the file's size, or an error code. */
  datatype Stat = Stat(size: nat) | StatError(code: string)

  /** One `fs.writeFile` call: target path, flag (`"w"` or `"a"`) and data. */
  datatype FileWrite = FileWrite(path: string, flag: string, data: string)

  /** Truncate once the file has reached the limit, append before that. */
  function WriteMode(fileSize: nat): (flag: string)
    ensures flag == "w" || flag == "a"
    ensures flag == "w" <==> fileSize >= MAX_LOG_SIZE
  {
    if fileSize >= MAX_LOG_SIZE then "w" else "a"
  }

  /**
   * `writeLog`: a stat error other than ENOENT writes nothing; a missing file
   * counts as size 0; otherwise the entry is written to the level's file
   * with the mode its size selects.
   */
  function WriteLog(logDir: string, level: string, entry: string, stat: Stat): (r: Option<FileWrite>)
    ensures r.None? <==> stat.StatError? && stat.code != "ENOENT"
    ensures r.Some? ==> r.value.path == LogPath(logDir, level) && r.value.data == entry
    ensures r.Some? ==> (r.value.flag == "w" <==> stat.Stat? && stat.size >= MAX_LOG_SIZE)
    ensures r.Some? ==> (r.value.flag == "a" <==> !(stat.Stat? && stat.size >= MAX_LOG_SIZE))
  {
    match stat
    case StatError(code) =>
      if code != "ENOENT" then None else Some(FileWrite(LogPath(logDir, level), WriteMode(0), entry))
    case Stat(size) =>
      Some(FileWrite(LogPath(logDir, level), WriteMode(size), entry))
  }

  /** File contents after a write with the given flag: replaced or extended. */
  function AfterWrite(contents: string, w: FileWrite): (r: string)
    ensures w.flag == "w" ==> r == w.data
    ensures w.flag != "w" ==> contents <= r && r[|contents|..] == w.data
  {
    if w.flag == "w" then w.data else contents + w.data
  }

  /**
   * The contents of an existing log file after `writeLog` has run once per
   * entry, in order: the last entry written always ends the file.
   */
  function Produce(logDir: string, level: string, contents: string, entries: seq<string>): (r: string)
    ensures |entries| == 0 ==> r == contents
    ensures |entries| > 0 ==> IsSuffix(entries[|entries| - 1], r)
    decreases |entries|
  {
    if |entries| == 0 then contents
    else
      var w := WriteLog(logDir, level, entries[0], Stat(|contents|)).value;
      Produce(logDir, level, AfterWrite(contents, w), entries[1..])
  }

  /**
   * A write at the limit shrinks the file to the new entry, which a tailer
   * sees as a truncation.
   */
  lemma RotationShrinksFile(logDir: string, level: string, contents: string, entry: string)
    requires |contents| >= MAX_LOG_SIZE
    requires |entry| < MAX_LOG_SIZE
    ensures var w := WriteLog(logDir, level, entry, Stat(|contents|)).value;
            w.flag == "w" && |AfterWrite(contents, w)| < |contents| && AfterWrite(contents, w) == entry
  {
  }

  /** Below the limit the file only grows: old contents stay a prefix. */
  lemma BelowLimitAppends(logDir: string, level: string, contents: string, entry: string)
    requires |contents| < MAX_LOG_SIZE
    ensures var w := WriteLog(logDir, level, entry, Stat(|contents|)).value;
            w.flag == "a" && contents <= AfterWrite(contents, w)
  {
  }

  /**
   * However many entries of at most `bound` characters are written, the file
   * stays below the limit plus one entry.
   */
  lemma {:induction false} ProducedSizeBounded(logDir: string, level: string, contents: string, entries: seq<string>, bound: nat)
    requires |contents| < MAX_LOG_SIZE + bound
    requires forall e | e in entries :: |e| <= bound
    ensures |Produce(logDir, level, contents, entries)| < MAX_LOG_SIZE + bound
    decreases |entries|
  {
    if |entries| > 0 {
      var w := WriteLog(logDir, level, entries[0], Stat(|contents|)).value;
      assert entries[0] in entries;
      assert |AfterWrite(contents, w)| < MAX_LOG_SIZE + bound;
      assert forall e | e in entries[1..] :: e in entries;
      ProducedSizeBounded(logDir, level, AfterWrite(contents, w), entries[1..], bound);
    }
  }
}
