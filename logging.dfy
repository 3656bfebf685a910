/**
 * The logging levels of utilities_api.go: nine levels numbered from 0, the two lookup tables
 * between levels and their names, and the parameters of a logging notification.
 */
module Logging {
  /** A level is a Go `int`; only 0..8 are named. */
  type Level = int

  const LevelNil: Level := 0
  const LevelDebug: Level := 1
  const LevelInfo: Level := 2
  const LevelNotice: Level := 3
  const LevelWarning: Level := 4
  const LevelError: Level := 5
  const LevelCritical: Level := 6
  const LevelAlert: Level := 7
  const LevelEmergency: Level := 8

  /** `level2str`. */
  const Level2Str: map<Level, string> := map[
    LevelNil := "Nil", LevelDebug := "Debug", LevelInfo := "Info", LevelNotice := "Notice",
    LevelWarning := "Warning", LevelError := "Error", LevelCritical := "Critical",
    LevelAlert := "Alert", LevelEmergency := "Emergency"]

  /** `str2Level`. */
  const Str2Level: map<string, Level> := map[
    "Nil" := LevelNil, "Debug" := LevelDebug, "Info" := LevelInfo, "Notice" := LevelNotice,
    "Warning" := LevelWarning, "Error" := LevelError, "Critical" := LevelCritical,
    "Alert" := LevelAlert, "Emergency" := LevelEmergency]

  /** The names in level order. */
  const LevelNames: seq<string> :=
    ["Nil", "Debug", "Info", "Notice", "Warning", "Error", "Critical", "Alert", "Emergency"]

  predicate IsNamedLevel(l: Level) {
    0 <= l < 9
  }

  /** The named levels are exactly 0..8, each named as `LevelNames` lists it. */
  lemma Level2StrInOrder()
    ensures forall l :: l in Level2Str <==> IsNamedLevel(l)
    ensures forall l :: IsNamedLevel(l) ==> Level2Str[l] == LevelNames[l]
  {
  }

  /** The two tables are inverse to each other. */
  lemma TablesInverse()
    ensures forall l :: l in Level2Str ==> Level2Str[l] in Str2Level && Str2Level[Level2Str[l]] == l
    ensures forall s :: s in Str2Level ==> Str2Level[s] in Level2Str && Level2Str[Str2Level[s]] == s
  {
  }

  /** `level2str` gives distinct levels distinct names. */
  lemma Level2StrInjective(a: Level, b: Level)
    requires a in Level2Str && b in Level2Str && a != b
    ensures Level2Str[a] != Level2Str[b]
  {
    TablesInverse();
  }

  /** Two maps that undo each other have as many entries. */
  lemma {:induction false} InverseSameSize<A, B>(f: map<A, B>, g: map<B, A>)
    requires forall a :: a in f ==> f[a] in g && g[f[a]] == a
    requires forall b :: b in g ==> g[b] in f && f[g[b]] == b
    ensures |f| == |g|
    decreases |f|
  {
    if |f| > 0 {
      var a :| a in f;
      var b := f[a];
      var f', g' := f - {a}, g - {b};
      forall x | x in f'
        ensures f'[x] in g' && g'[f'[x]] == x
      {
        assert f[x] != b;
      }
      InverseSameSize(f', g');
      assert |f'| == |f| - 1 && |g'| == |g| - 1;
    }
  }

  /** A table keyed by exactly 0..n-1 has n entries. */
  lemma {:induction false} RangeKeyed(m: map<Level, string>, n: nat)
    requires forall l :: l in m <==> 0 <= l < n
    ensures |m| == n
  {
    if n > 0 {
      RangeKeyed(m - {n - 1}, n - 1);
    } else {
      assert forall l :: l !in m.Keys;
      assert m.Keys == {};
    }
  }

  /** Each table has nine entries. */
  lemma TablesHaveNineEntries()
    ensures |Level2Str| == 9 && |Str2Level| == 9
  {
    Level2StrInOrder();
    RangeKeyed(Level2Str, 9);
    TablesInverse();
    InverseSameSize(Level2Str, Str2Level);
  }

  /** The `params` of a `notifications/message`. */
  datatype LoggingMessageParams<T> = LoggingMessageParams(level: string, logger: string, data: T)

  /**
   * `newLoggingMessageParams`: the level's name, or "" for a level that has none (a missing
   * key reads as the zero value); `logger` and `data` are kept.
   */
  function NewLoggingMessageParams<T>(level: Level, logger: string, data: T): (p: LoggingMessageParams<T>)
    ensures IsNamedLevel(level) ==> p.level == LevelNames[level]
    ensures !IsNamedLevel(level) ==> p.level == ""
    ensures p.logger == logger && p.data == data
  {
    LoggingMessageParams(if level in Level2Str then Level2Str[level] else "", logger, data)
  }

  /** Reading the stored level name back through `str2Level` recovers a named level. */
  lemma LevelNameRoundTrip<T>(level: Level, logger: string, data: T)
    requires IsNamedLevel(level)
    ensures var p := NewLoggingMessageParams(level, logger, data);
      p.level in Str2Level && Str2Level[p.level] == level
  {
    TablesInverse();
  }
}
