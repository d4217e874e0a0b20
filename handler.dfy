/** `SqlTracker::Handler`: filters executed statements by their SQL command
    and counts them in a table keyed by the case-folded, literal-masked
    statement text. */
module SqlHandler {
  import opened SqlText
  import opened SqlMasker
  import opened SqlCaseFold

  /** The handler's view of the configuration: the `enabled` switch and
      `tracked_sql_command`. */
  datatype Config = Config(enabled: bool, trackedSqlCommand: seq<string>)

  /** The event payload; `sql` is absent when the event carries no statement. */
  datatype Payload = Payload(sql: Option<string>)

  /** One row of the tracking table. */
  datatype Record = Record(count: nat)

  /** The text of `s` up to its first space. */
  function FirstWord(s: string): (w: string)
    ensures w <= s && ' ' !in w
    ensures |w| < |s| ==> s[|w|] == ' '
    decreases |s|
  {
    if s == [] || s[0] == ' ' then [] else [s[0]] + FirstWord(s[1..])
  }

  lemma {:induction false} FirstWordOf(w: string, rest: string)
    requires ' ' !in w && (rest == [] || rest[0] == ' ')
    ensures FirstWord(w + rest) == w
    decreases |w|
  {
    if w != [] {
      assert (w + rest)[1..] == w[1..] + rest;
      FirstWordOf(w[1..], rest);
    } else {
      assert w + rest == rest;
    }
  }

  /** The statement's SQL command: its first word, upper-cased. */
  function Command(sql: string): string {
    Upper(FirstWord(Squish(sql)))
  }

  /** Leading whitespace is skipped, and the command is the first word up
      to the next whitespace, whatever its case. */
  lemma CommandOf(ws: string, w: string, rest: string)
    requires AllSpace(ws) && w != [] && NoSpaceFrom(w, 0)
    requires rest == [] || IsSpace(rest[0])
    ensures Command(ws + w + rest) == Upper(w)
  {
    var r := SquishWord(ws, w, rest);
    forall i | 0 <= i < |w|
      ensures w[i] != ' '
    {
      NoSpaceAt(w, 0, i);
    }
    FirstWordOf(w, r);
  }

  /** Squishing a statement that opens with a word keeps that word at the front. */
  lemma SquishWord(ws: string, w: string, rest: string) returns (r: string)
    requires AllSpace(ws) && w != [] && NoSpaceFrom(w, 0)
    requires rest == [] || IsSpace(rest[0])
    ensures Squish(ws + w + rest) == w + r && (r == [] || r[0] == ' ')
  {
    var st := Squeeze(true, false);
    r := Collapse(rest, st);
    assert ws + w + rest == ws + (w + rest);
    CollapseAppend(ws, w + rest, Fresh);
    CollapseBlank(ws, Fresh);
    assert Squish(ws + w + rest) == Collapse(w + rest, Fresh);
    CollapseAppend(w, rest, Fresh);
    CollapseWord(w, false);
    NoSpaceAt(w, 0, |w| - 1);
    FeedAllEnd(w, Fresh);
    if rest != [] {
      assert r == Collapse(rest[1..], Squeeze(true, true));
      CollapseGap(rest[1..]);
    }
  }

  /** `command` is one of `commands`, compared case-insensitively. */
  predicate Listed(commands: seq<string>, command: string) {
    exists i :: 0 <= i < |commands| && Upper(commands[i]) == command
  }

  /** Whether the handler tracks `sql` under `config`. */
  predicate Accepts(config: Option<Config>, sql: string) {
    && config.Some?
    && config.value.enabled
    && Listed(config.value.trackedSqlCommand, Command(sql))
  }

  /** The key a statement is counted under. */
  function Key(sql: string): string {
    Lower(CleanSqlQuery(sql))
  }

  /** Folding case before cleaning gives the key: masking and rendering
      commute with `downcase`. */
  lemma KeyIsCleanedLower(sql: string)
    ensures Key(sql) == CleanSqlQuery(Lower(sql))
  {
    CleanLower(sql);
  }

  /** Statements that differ only in the case of their letters share one key. */
  lemma KeyCaseInsensitive(a: string, b: string)
    requires Lower(a) == Lower(b)
    ensures Key(a) == Key(b)
  {
    KeyIsCleanedLower(a);
    KeyIsCleanedLower(b);
  }

  /** The same, character by character: statements of one length whose
      characters fold alike share one key. */
  lemma KeySameLetters(a: string, b: string)
    requires |a| == |b| && SameLowerFrom(a, b, 0)
    ensures Key(a) == Key(b)
  {
    SameLower(a, b, 0);
    assert a[0..] == a && b[0..] == b;
    KeyCaseInsensitive(a, b);
  }

  /** The table after counting one more statement under `key`. */
  function Count(data: map<string, Record>, key: string): map<string, Record> {
    data[key := Record(if key in data then data[key].count + 1 else 1)]
  }

  /** The table after one event. */
  function Track(data: map<string, Record>, config: Option<Config>, payload: Payload): map<string, Record> {
    if payload.sql.Some? && Accepts(config, payload.sql.value) then Count(data, Key(payload.sql.value))
    else data
  }

  class Handler {
    const config: Option<Config>
    var data: map<string, Record>

    constructor (config: Option<Config>)
      ensures this.config == config && data == map[]
    {
      this.config := config;
      data := map[];
    }

    /** Handle one executed statement (`Handler#call`). */
    method Call(payload: Payload)
      modifies this
      ensures data == Track(old(data), config, payload)
    {
      if payload.sql.Some? && Accepts(config, payload.sql.value) {
        var key := Key(payload.sql.value);
        assert Track(data, config, payload) == Count(data, key);
        if key in data {
          data := data[key := Record(data[key].count + 1)];
        } else {
          data := data[key := Record(1)];
        }
      }
    }
  }

  /** Counting adds `key` to the table, raises its count by one and leaves
      every other row alone. */
  lemma CountEffect(data: map<string, Record>, key: string)
    ensures Count(data, key).Keys == data.Keys + {key}
    ensures Count(data, key)[key].count == (if key in data then data[key].count else 0) + 1
    ensures forall k | k in data && k != key :: Count(data, key)[k] == data[k]
  {
  }

  /** Every row of a table built by counting has a positive count. */
  ghost predicate Counted(data: map<string, Record>) {
    forall k | k in data :: data[k].count >= 1
  }

  lemma TrackCounted(data: map<string, Record>, config: Option<Config>, payload: Payload)
    requires Counted(data)
    ensures Counted(Track(data, config, payload))
  {
  }

  /** A rejected event leaves the table as it was. */
  lemma TrackRejected(data: map<string, Record>, config: Option<Config>, payload: Payload)
    requires payload.sql.None? || !Accepts(config, payload.sql.value)
    ensures Track(data, config, payload) == data
  {
  }

  /** An accepted event adds at most one key: exactly one when its key is new. */
  lemma TrackKeys(data: map<string, Record>, config: Option<Config>, sql: string)
    requires Accepts(config, sql)
    ensures var d := Track(data, config, Payload(Some(sql)));
      d.Keys == data.Keys + {Key(sql)} && d[Key(sql)].count >= 1
    ensures Key(sql) !in data ==> |Track(data, config, Payload(Some(sql))).Keys| == |data.Keys| + 1
    ensures Key(sql) in data ==> |Track(data, config, Payload(Some(sql))).Keys| == |data.Keys|
  {
    var d := Track(data, config, Payload(Some(sql)));
    assert d.Keys == data.Keys + {Key(sql)};
    if Key(sql) !in data {
      assert |data.Keys + {Key(sql)}| == |data.Keys| + 1;
    } else {
      assert data.Keys + {Key(sql)} == data.Keys;
    }
  }
}
