/** Start-up of the slon daemon (main in slon.c): the getopt loop over
    "d:s:t:g:hv" that range-checks the options and sets the daemon's
    globals, the usage check, the fix-up of the SYNC interval timeout and
    the construction of the quoted cluster namespace "_<cluster>". The
    database start-up that follows is not part of this model. */
module SlonOptions {
  import opened Common
  import opened Quoting

  /** One option as getopt returns it; option arguments are the numbers
      strtol reads from them. A missing argument is an Unknown option. */
  datatype Opt =
    | Debug(level: int)
    | Sync(interval: int)
    | Timeout(ms: int)
    | Group(size: int)
    | Help
    | Version
    | Unknown(c: char)

  /** The daemon's globals the options set: slon_log_level, sync_interval,
      sync_group_maxsize and sync_interval_timeout. */
  datatype Settings = Settings(logLevel: int, syncInterval: int, groupMaxsize: int, intervalTimeout: int)

  /** The state of the getopt loop: the globals, the error count and
      whether -g has been seen. */
  datatype Parse = Parse(s: Settings, errors: nat, groupSizeSet: bool)

  const SyncIntervalMin: int := 100
  const SyncIntervalMax: int := 60000
  const GroupSizeMax: int := 100

  /** One option other than -v. */
  function OptionStep(p: Parse, o: Opt, slonInfo: int): Parse
    requires !o.Version?
  {
    match o
    case Debug(level) =>
      var bad := level < 0 || level > 4;
      Parse(p.s.(logLevel := level + slonInfo), p.errors + (if bad then 1 else 0), p.groupSizeSet)
    case Sync(interval) =>
      if interval < SyncIntervalMin || interval > SyncIntervalMax then
        Parse(p.s.(syncInterval := interval), p.errors + 1, p.groupSizeSet)
      else if !p.groupSizeSet then
        var g := SyncIntervalMax / interval;
        Parse(p.s.(syncInterval := interval, groupMaxsize := if g > GroupSizeMax then GroupSizeMax else g), p.errors, p.groupSizeSet)
      else
        Parse(p.s.(syncInterval := interval), p.errors, p.groupSizeSet)
    case Timeout(ms) =>
      Parse(p.s.(intervalTimeout := ms), p.errors + (if p.s.syncInterval < 0 then 1 else 0), p.groupSizeSet)
    case Group(size) =>
      var bad := size < 1 || size > GroupSizeMax;
      Parse(p.s.(groupMaxsize := size), p.errors + (if bad then 1 else 0), true)
    case Help => p.(errors := p.errors + 1)
    case Unknown(_) => p.(errors := p.errors + 1)
  }

  /** The getopt loop over the options: None when -v is met, which prints
      the version and exits with status 0. */
  function ParseAll(p: Parse, opts: seq<Opt>, slonInfo: int): Option<Parse>
    decreases |opts|
  {
    if |opts| == 0 then Some(p)
    else if opts[0].Version? then None
    else ParseAll(OptionStep(p, opts[0], slonInfo), opts[1..], slonInfo)
  }

  /** "Make sure the sync interval isn't too small": a timeout that is set
      and not above the interval becomes twice the interval. */
  function FixTimeout(interval: int, timeout: int): int
  {
    if timeout != 0 && timeout <= interval then interval * 2 else timeout
  }

  /** The result of main's argument handling. */
  datatype StartOutcome =
    | ShowVersion
    | Usage
    | Start(settings: Settings, clusterName: string, namespace: string)

  /** rtcfg_namespace: the cluster name prefixed by an underscore, between
      double quotes, with embedded double quotes doubled. */
  function Namespace(cluster: string): string
  {
    "\"_" + DoubleQuotes(cluster) + "\""
  }

  /** What main decides from its settings at entry, its options and its
      positional arguments. */
  function StartSpec(init: Settings, opts: seq<Opt>, positional: seq<string>, slonInfo: int): StartOutcome
  {
    match ParseAll(Parse(init, 0, false), opts, slonInfo)
    case None => ShowVersion
    case Some(p) =>
      if p.errors + (if |positional| != 2 then 1 else 0) != 0 then Usage
      else
        var s := p.s.(intervalTimeout := FixTimeout(p.s.syncInterval, p.s.intervalTimeout));
        Start(s, positional[0], Namespace(positional[0]))
  }

  // ---------------------------------------------------------------------
  // Properties of the options.
  // ---------------------------------------------------------------------

  /** -d: a level outside 0..4 counts an error; the stored level is the
      argument plus SLON_INFO either way. */
  lemma DebugOption(p: Parse, level: int, slonInfo: int)
    ensures var q := OptionStep(p, Debug(level), slonInfo);
      && q.s.logLevel == level + slonInfo
      && (q.errors == p.errors + 1 <==> level < 0 || level > 4)
      && (q.errors == p.errors <==> 0 <= level <= 4)
      && q.s.(logLevel := p.s.logLevel) == p.s && q.groupSizeSet == p.groupSizeSet
  {
  }

  /** -s: outside 100..60000 counts an error; in range, and unless -g was
      seen, the group size becomes 60000 / interval capped at 100. */
  lemma SyncOption(p: Parse, interval: int, slonInfo: int)
    ensures var q := OptionStep(p, Sync(interval), slonInfo);
      && q.s.syncInterval == interval
      && (q.errors == p.errors + 1 <==> interval < SyncIntervalMin || interval > SyncIntervalMax)
      && (q.errors == p.errors <==> SyncIntervalMin <= interval <= SyncIntervalMax)
      && (q.s.groupMaxsize != p.s.groupMaxsize ==> SyncIntervalMin <= interval <= SyncIntervalMax && !p.groupSizeSet)
      && (SyncIntervalMin <= interval <= SyncIntervalMax && !p.groupSizeSet ==>
            q.s.groupMaxsize * interval <= SyncIntervalMax && 1 <= q.s.groupMaxsize <= GroupSizeMax
            && (q.s.groupMaxsize < GroupSizeMax ==> SyncIntervalMax < (q.s.groupMaxsize + 1) * interval))
      && q.groupSizeSet == p.groupSizeSet
  {
  }

  /** -g: outside 1..100 counts an error, and it marks the group size as
      set so that a later -s leaves it alone. */
  lemma GroupOption(p: Parse, size: int, slonInfo: int)
    ensures var q := OptionStep(p, Group(size), slonInfo);
      && q.s.groupMaxsize == size && q.groupSizeSet
      && (q.errors == p.errors + 1 <==> size < 1 || size > GroupSizeMax)
      && (q.errors == p.errors <==> 1 <= size <= GroupSizeMax)
  {
  }

  /** -t: the value is stored as given; the check tests the SYNC interval
      set so far, not the timeout, so a negative timeout is accepted. */
  lemma TimeoutOption(p: Parse, ms: int, slonInfo: int)
    ensures var q := OptionStep(p, Timeout(ms), slonInfo);
      && q.s.intervalTimeout == ms
      && (q.errors == p.errors + 1 <==> p.s.syncInterval < 0)
      && (q.errors == p.errors <==> p.s.syncInterval >= 0)
  {
  }

  /** A set group size survives every later option but -g. */
  lemma {:induction false} GroupSizeSticky(p: Parse, opts: seq<Opt>, slonInfo: int)
    requires p.groupSizeSet
    requires forall i :: 0 <= i < |opts| ==> !opts[i].Group?
    ensures ParseAll(p, opts, slonInfo).Some? ==> ParseAll(p, opts, slonInfo).value.s.groupMaxsize == p.s.groupMaxsize
    decreases |opts|
  {
    if |opts| > 0 && !opts[0].Version? {
      GroupSizeSticky(OptionStep(p, opts[0], slonInfo), opts[1..], slonInfo);
    }
  }

  /** The error count only grows; -h or an unknown option before any -v
      makes it positive. */
  lemma {:induction false} ErrorsCount(p: Parse, opts: seq<Opt>, slonInfo: int)
    ensures ParseAll(p, opts, slonInfo).Some? ==> ParseAll(p, opts, slonInfo).value.errors >= p.errors
    ensures ParseAll(p, opts, slonInfo).Some? && (exists i :: 0 <= i < |opts| && (opts[i].Help? || opts[i].Unknown?)) ==>
      ParseAll(p, opts, slonInfo).value.errors > p.errors
    decreases |opts|
  {
    if |opts| > 0 && !opts[0].Version? {
      var q := OptionStep(p, opts[0], slonInfo);
      ErrorsCount(q, opts[1..], slonInfo);
      if exists i :: 0 <= i < |opts| && (opts[i].Help? || opts[i].Unknown?) {
        var i :| 0 <= i < |opts| && (opts[i].Help? || opts[i].Unknown?);
        if i > 0 {
          assert opts[1..][i - 1] == opts[i];
        }
      }
    }
  }

  /** Anything other than two positional arguments, -h or an unknown
      option makes main return 1 (when no -v comes first). */
  lemma UsageCases(init: Settings, opts: seq<Opt>, positional: seq<string>, slonInfo: int)
    requires forall i :: 0 <= i < |opts| ==> !opts[i].Version?
    requires |positional| != 2 || exists i :: 0 <= i < |opts| && (opts[i].Help? || opts[i].Unknown?)
    ensures StartSpec(init, opts, positional, slonInfo) == Usage
  {
    NoVersionParses(Parse(init, 0, false), opts, slonInfo);
    ErrorsCount(Parse(init, 0, false), opts, slonInfo);
  }

  lemma {:induction false} NoVersionParses(p: Parse, opts: seq<Opt>, slonInfo: int)
    requires forall i :: 0 <= i < |opts| ==> !opts[i].Version?
    ensures ParseAll(p, opts, slonInfo).Some?
    decreases |opts|
  {
    if |opts| > 0 {
      assert forall i :: 0 <= i < |opts[1..]| ==> opts[1..][i] == opts[i + 1];
      NoVersionParses(OptionStep(p, opts[0], slonInfo), opts[1..], slonInfo);
    }
  }

  /** After the fix-up a positive interval is either unbounded by a timeout
      (0) or strictly below it, and a timeout already above it is kept. */
  lemma FixTimeoutMeaning(interval: int, timeout: int)
    requires interval > 0
    ensures FixTimeout(interval, timeout) == 0 || FixTimeout(interval, timeout) > interval
    ensures (timeout == 0 || timeout > interval) ==> FixTimeout(interval, timeout) == timeout
  {
  }

  /** The namespace is the delimited identifier of "_" + cluster name, so
      it reads back as that name. */
  lemma NamespaceIsDelimited(cluster: string)
    ensures Namespace(cluster) == Delimited("_" + cluster)
    ensures Dequote(Namespace(cluster)) == Some("_" + cluster)
    ensures |Namespace(cluster)| + 1 <= 2 * |cluster| + 4
  {
    var u := "_" + cluster;
    assert u[0] == '_' && u[1..] == cluster;
    assert DoubleQuotes(u) == "_" + DoubleQuotes(cluster);
    DelimitedRoundTrip(u);
    CountQuotesBound(cluster);
  }

  lemma {:induction false} CountQuotesBound(s: string)
    ensures CountQuotes(s) <= |s|
  {
    if |s| > 0 {
      CountQuotesBound(s[1..]);
    }
  }

  // ---------------------------------------------------------------------
  // main.
  // ---------------------------------------------------------------------

  /** The daemon's globals. */
  class Slon {
    var logLevel: int
    var syncInterval: int
    var syncGroupMaxsize: int
    var syncIntervalTimeout: int

    function Current(): Settings
      reads this
    {
      Settings(logLevel, syncInterval, syncGroupMaxsize, syncIntervalTimeout)
    }

    constructor (init: Settings)
      ensures Current() == init
    {
      logLevel := init.logLevel;
      syncInterval := init.syncInterval;
      syncGroupMaxsize := init.groupMaxsize;
      syncIntervalTimeout := init.intervalTimeout;
    }

    /** The getopt loop. */
    method ParseOptions(opts: seq<Opt>, slonInfo: int) returns (version: bool, errors: nat, groupSizeSet: bool)
      modifies this
      ensures var r := ParseAll(Parse(old(Current()), 0, false), opts, slonInfo);
        && (version <==> r.None?)
        && (!version ==> r.value == Parse(Current(), errors, groupSizeSet))
    {
      errors, groupSizeSet := 0, false;
      var k := 0;
      while k < |opts|
        invariant 0 <= k <= |opts|
        invariant ParseAll(Parse(old(Current()), 0, false), opts, slonInfo)
               == ParseAll(Parse(Current(), errors, groupSizeSet), opts[k..], slonInfo)
      {
        assert opts[k..][1..] == opts[k + 1..];
        match opts[k] {
        case Debug(level) =>
          logLevel := level;
          if logLevel < 0 || logLevel > 4 {
            errors := errors + 1;
          }
          logLevel := logLevel + slonInfo;
        case Sync(interval) =>
          syncInterval := interval;
          if syncInterval < SyncIntervalMin || syncInterval > SyncIntervalMax {
            errors := errors + 1;
          } else if !groupSizeSet {
            syncGroupMaxsize := SyncIntervalMax / syncInterval;
            if syncGroupMaxsize > GroupSizeMax {
              syncGroupMaxsize := GroupSizeMax;
            }
          }
        case Timeout(ms) =>
          syncIntervalTimeout := ms;
          if syncInterval < 0 {
            errors := errors + 1;
          }
        case Group(size) =>
          syncGroupMaxsize := size;
          if syncGroupMaxsize < 1 || syncGroupMaxsize > GroupSizeMax {
            errors := errors + 1;
          }
          groupSizeSet := true;
        case Help =>
          errors := errors + 1;
        case Version =>
          return true, errors, groupSizeSet;
        case Unknown(_) =>
          errors := errors + 1;
        }
        k := k + 1;
      }
      version := false;
    }

    /** main up to the start of the daemon proper. */
    method StartUp(opts: seq<Opt>, positional: seq<string>, slonInfo: int) returns (outcome: StartOutcome)
      requires forall i :: 0 <= i < |positional| ==> NUL !in positional[i]
      modifies this
      ensures outcome == StartSpec(old(Current()), opts, positional, slonInfo)
      ensures outcome.Start? ==> Current() == outcome.settings
    {
      var version, errors, groupSizeSet := ParseOptions(opts, slonInfo);
      if version {
        return ShowVersion;
      }
      if |positional| != 2 {
        errors := errors + 1;
      }
      if errors != 0 {
        return Usage;
      }
      if syncIntervalTimeout != 0 && syncIntervalTimeout <= syncInterval {
        syncIntervalTimeout := syncInterval * 2;
      }
      var ns := BuildNamespace(positional[0]);
      outcome := Start(Current(), positional[0], ns);
    }
  }

  const NUL: char := 0 as char

  /** The namespace loop: a buffer of 2 * strlen + 4 characters written
      through a moving pointer, terminated in bounds. */
  method BuildNamespace(cluster: string) returns (ns: string)
    requires NUL !in cluster
    ensures ns == Namespace(cluster)
  {
    var buf := new char[|cluster| * 2 + 4];
    buf[0] := '"';
    buf[1] := '_';
    var cp2 := 2;
    var i := 0;
    while i < |cluster|
      invariant 0 <= i <= |cluster|
      invariant cp2 == 2 + i + CountQuotes(cluster[..i]) && CountQuotes(cluster[..i]) <= i
      invariant buf[..cp2] == "\"_" + DoubleQuotes(cluster[..i])
    {
      var ch := cluster[i];
      DelimitedStep(cluster, i);
      Assoc("\"_", DoubleQuotes(cluster[..i]), Doubled(ch));
      cp2 := WriteDoubled(buf, cp2, ch);
      i := i + 1;
    }
    buf[cp2] := '"';
    cp2 := cp2 + 1;
    buf[cp2] := NUL;
    assert cluster[..i] == cluster;
    ns := buf[..cp2];
  }
}
