/** The environment-variables and secrets page: two tables of trimmed name/value pairs, and a
    bulk `KEY=VALUE` parser that merges lines of text into the environment table. */
module EnvSecrets {
  import opened Wrappers
  import opened Text
  import opened Lists

  /** The page's state: both tables, the four name/value inputs and the bulk text. */
  datatype Page = Page(envVars: map<string, string>, secrets: map<string, string>,
                       newEnvName: string, newEnvValue: string,
                       newSecretName: string, newSecretValue: string, bulkEnvs: string)

  const InitialPage: Page :=
    Page(map["NODE_ENV" := "development", "PORT" := "3000"], map[], "", "", "", "", "")

  /** `addEnvVar`: acts only when both trimmed inputs are non-empty; then the trimmed name holds
      the trimmed value and both inputs are cleared. */
  function AddEnvVar(p: Page): (r: Page)
    ensures IsBlank(p.newEnvName) || IsBlank(p.newEnvValue) ==> r == p
    ensures !IsBlank(p.newEnvName) && !IsBlank(p.newEnvValue) ==>
      r == p.(envVars := p.envVars[Trim(p.newEnvName) := Trim(p.newEnvValue)], newEnvName := "", newEnvValue := "") &&
      Trim(p.newEnvName) != "" && Trim(p.newEnvValue) != ""
  {
    if Trim(p.newEnvName) != "" && Trim(p.newEnvValue) != "" then
      p.(envVars := p.envVars[Trim(p.newEnvName) := Trim(p.newEnvValue)], newEnvName := "", newEnvValue := "")
    else p
  }

  /** `addSecret`: the same rule for the secrets table and its inputs. */
  function AddSecret(p: Page): (r: Page)
    ensures IsBlank(p.newSecretName) || IsBlank(p.newSecretValue) ==> r == p
    ensures !IsBlank(p.newSecretName) && !IsBlank(p.newSecretValue) ==>
      r == p.(secrets := p.secrets[Trim(p.newSecretName) := Trim(p.newSecretValue)],
              newSecretName := "", newSecretValue := "") &&
      Trim(p.newSecretName) != "" && Trim(p.newSecretValue) != ""
  {
    if Trim(p.newSecretName) != "" && Trim(p.newSecretValue) != "" then
      p.(secrets := p.secrets[Trim(p.newSecretName) := Trim(p.newSecretValue)],
         newSecretName := "", newSecretValue := "")
    else p
  }

  /** `removeEnvVar(key)`: exactly that key is deleted. */
  function RemoveEnvVar(p: Page, key: string): (r: Page)
    ensures key !in r.envVars
    ensures forall k :: k != key ==> (k in r.envVars <==> k in p.envVars)
    ensures forall k :: k != key && k in p.envVars ==> r.envVars[k] == p.envVars[k]
    ensures r.secrets == p.secrets && r.bulkEnvs == p.bulkEnvs
  {
    p.(envVars := p.envVars - {key})
  }

  /** `removeSecret(key)`: exactly that key is deleted. */
  function RemoveSecret(p: Page, key: string): (r: Page)
    ensures key !in r.secrets
    ensures forall k :: k != key ==> (k in r.secrets <==> k in p.secrets)
    ensures forall k :: k != key && k in p.secrets ==> r.secrets[k] == p.secrets[k]
    ensures r.envVars == p.envVars && r.bulkEnvs == p.bulkEnvs
  {
    p.(secrets := p.secrets - {key})
  }

  /** Removing a variable that was just added restores the table when the name was new. */
  lemma RemoveAfterAdd(p: Page)
    requires !IsBlank(p.newEnvName) && !IsBlank(p.newEnvValue) && Trim(p.newEnvName) !in p.envVars
    ensures RemoveEnvVar(AddEnvVar(p), Trim(p.newEnvName)).envVars == p.envVars
  {
    UpdateThenDelete(p.envVars, Trim(p.newEnvName), Trim(p.newEnvValue));
  }

  lemma UpdateThenDelete(m: map<string, string>, k: string, v: string)
    requires k !in m
    ensures m[k := v] - {k} == m
  {
  }

  /** One parsed line: the name and the value it sets. */
  datatype Entry = Entry(key: string, value: string)

  /** What one line of the bulk text sets: `[key, ...valueParts] = line.split('=')` is used when
      `key` is non-empty and there is at least one `'='`; the key and the rejoined rest are
      trimmed. */
  function LineEntry(line: string): Option<Entry> {
    var parts := Split(line, '=');
    if parts[0] != "" && |parts| > 1 then Some(Entry(Trim(parts[0]), Trim(Join(parts[1..], '='))))
    else None
  }

  /** The name assigning to which on a plain object changes its prototype, not its entries. */
  const ProtoKey: string := "__proto__"

  /** True for the lines `parseBulkEnvs` keeps: those whose trimmed text is non-empty. */
  predicate NonBlank(line: string) {
    !IsBlank(line)
  }

  /** The lines `parseBulkEnvs` reads: the text split on newlines, whitespace-only lines dropped. */
  function BulkLines(bulk: string): seq<string> {
    Filter(Split(bulk, '\n'), NonBlank)
  }

  /** What each line sets, line by line. */
  function Parsed(lines: seq<string>): seq<Option<Entry>> {
    seq(|lines|, k requires 0 <= k < |lines| => LineEntry(lines[k]))
  }

  /** One assignment `newVars[key] = value`; assigning to the prototype name changes nothing. */
  function Assign(vars: map<string, string>, entry: Option<Entry>): map<string, string> {
    if entry.Some? && entry.value.key != ProtoKey then vars[entry.value.key := entry.value.value] else vars
  }

  /** The `newVars` object after the entries, one at a time in order. */
  function Fold(entries: seq<Option<Entry>>): map<string, string> {
    if entries == [] then map[]
    else Assign(Fold(entries[..|entries| - 1]), entries[|entries| - 1])
  }

  /** The `newVars` object `parseBulkEnvs` builds from its lines. */
  function BulkVars(lines: seq<string>): map<string, string> {
    Fold(Parsed(lines))
  }

  /** `parseBulkEnvs`: every parsed entry is merged into the environment table, overriding the
      names it sets and keeping the rest; the bulk text is cleared. */
  method ParseBulkEnvs(p: Page) returns (r: Page)
    ensures r == p.(envVars := p.envVars + BulkVars(BulkLines(p.bulkEnvs)), bulkEnvs := "")
  {
    var newVars := AssignLines(BulkLines(p.bulkEnvs));
    r := p.(envVars := p.envVars + newVars, bulkEnvs := "");
  }

  /** The `lines.forEach` loop of `parseBulkEnvs`, filling a fresh `newVars`. */
  method AssignLines(lines: seq<string>) returns (newVars: map<string, string>)
    ensures newVars == BulkVars(lines)
  {
    newVars := map[];
    for i := 0 to |lines|
      invariant newVars == BulkVars(lines[..i])
    {
      BulkVarsSnoc(lines[..i], lines[i]);
      assert lines[..i + 1] == lines[..i] + [lines[i]];
      var entry := LineEntry(lines[i]);
      if entry.Some? && entry.value.key != ProtoKey {
        newVars := newVars[entry.value.key := entry.value.value];
      }
    }
    assert lines[..|lines|] == lines;
  }

  /** One more line makes one more assignment. */
  lemma BulkVarsSnoc(lines: seq<string>, line: string)
    ensures BulkVars(lines + [line]) == Assign(BulkVars(lines), LineEntry(line))
  {
    var ps := Parsed(lines + [line]);
    assert ps[..|lines|] == Parsed(lines);
    assert ps[|lines|] == LineEntry(line);
  }

  /** The line `key=value`, with no `'='` in a non-empty `key`, sets the trimmed key to the
      trimmed value, whatever `'='` characters the value holds. */
  lemma LineEntryOf(key: string, value: string)
    requires key != "" && '=' !in key
    ensures LineEntry(key + "=" + value) == Some(Entry(Trim(key), Trim(value)))
  {
    var vs := Split(value, '=');
    var ps := [key] + vs;
    assert ps[1..] == vs;
    assert Join(ps, '=') == key + "=" + value;
    SplitJoin(ps, '=');
  }

  /** A split into several pieces means the separator occurs. */
  lemma SeveralPieces(s: string, sep: char)
    ensures sep in s || |Split(s, sep)| == 1
  {
    var parts := Split(s, sep);
    if |parts| > 1 {
      assert s == parts[0] + [sep] + Join(parts[1..], sep);
      assert s[|parts[0]|] == sep;
    }
  }

  /** A line without `'='` sets nothing. */
  lemma LineWithoutEquals(line: string)
    requires '=' !in line
    ensures LineEntry(line) == None
  {
    SeveralPieces(line, '=');
  }

  /** A line starting with `'='` sets nothing: its key is empty. */
  lemma LineStartingWithEquals(line: string)
    requires line != [] && line[0] == '='
    ensures LineEntry(line) == None
  {
    assert Split(line, '=')[0] == "";
  }

  /** A whitespace-only line sets nothing: it holds no `'='`. */
  lemma BlankLineSetsNothing(line: string)
    requires IsBlank(line)
    ensures LineEntry(line) == None
  {
    assert forall k :: 0 <= k < |line| ==> line[k] != '=' by {
      forall k | 0 <= k < |line| ensures line[k] != '=' {
        assert IsSpace(line[k]);
      }
    }
    LineWithoutEquals(line);
  }

  /** Dropping whitespace-only lines changes nothing, since such a line sets nothing. */
  lemma {:induction false} BlankLinesSetNothing(lines: seq<string>)
    ensures BulkVars(Filter(lines, NonBlank)) == BulkVars(lines)
    decreases |lines|
  {
    if lines != [] {
      var front := lines[..|lines| - 1];
      var last := lines[|lines| - 1];
      assert front + [last] == lines;
      BlankLinesSetNothing(front);
      BulkVarsSnoc(front, last);
      FilterSnoc(front, last, NonBlank);
      KeptLine(Filter(front, NonBlank), last);
    }
  }

  /** Keeping a line only when it is not blank makes the same assignments. */
  lemma KeptLine(kept: seq<string>, line: string)
    ensures BulkVars(kept + (if NonBlank(line) then [line] else [])) == Assign(BulkVars(kept), LineEntry(line))
  {
    if NonBlank(line) {
      BulkVarsSnoc(kept, line);
    } else {
      assert kept + [] == kept;
      BlankLineSetsNothing(line);
    }
  }

  /** True when `entry` sets `key`. */
  predicate SetsKey(entry: Option<Entry>, key: string) {
    entry.Some? && entry.value.key == key
  }

  /** The position of the last entry that sets `key`, or -1 when none does. */
  function LastSetter(es: seq<Option<Entry>>, key: string): (r: int)
    ensures -1 <= r < |es|
    ensures r >= 0 ==> SetsKey(es[r], key)
    ensures forall j :: r < j < |es| ==> !SetsKey(es[j], key)
  {
    if es == [] then -1
    else if SetsKey(es[|es| - 1], key) then |es| - 1
    else
      var r := LastSetter(es[..|es| - 1], key);
      assert forall j :: r < j < |es| - 1 ==> es[j] == es[..|es| - 1][j];
      r
  }

  /** The names the fold defines are exactly those some entry sets, except the prototype name,
      and each holds the value of the LAST entry that sets it. */
  lemma {:induction false} FoldLastWins(es: seq<Option<Entry>>, key: string)
    ensures key in Fold(es) <==> key != ProtoKey && LastSetter(es, key) >= 0
    ensures key in Fold(es) ==> es[LastSetter(es, key)] == Some(Entry(key, Fold(es)[key]))
    decreases |es|
  {
    if es != [] {
      var front := es[..|es| - 1];
      FoldLastWins(front, key);
      if !SetsKey(es[|es| - 1], key) {
        var i := LastSetter(front, key);
        assert i >= 0 ==> front[i] == es[i];
      }
    }
  }

  /** For the lines themselves: the parsed names are exactly those some line sets, except the
      prototype name, and each holds the value of the last line that sets it. */
  lemma BulkVarsLastWins(lines: seq<string>, key: string)
    ensures key in BulkVars(lines) <==>
      key != ProtoKey && exists i :: 0 <= i < |lines| && SetsKey(LineEntry(lines[i]), key)
    ensures key in BulkVars(lines) ==>
      exists i :: 0 <= i < |lines| && LineEntry(lines[i]) == Some(Entry(key, BulkVars(lines)[key])) &&
        (forall j :: i < j < |lines| ==> !SetsKey(LineEntry(lines[j]), key))
  {
    var ps := Parsed(lines);
    FoldLastWins(ps, key);
    var i := LastSetter(ps, key);
    assert forall k :: 0 <= k < |lines| ==> ps[k] == LineEntry(lines[k]);
    if i == -1 {
      assert forall k :: 0 <= k < |lines| ==> !SetsKey(LineEntry(lines[k]), key);
    }
  }
}
