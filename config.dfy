/** config/config.py: the hand-written `.env` reader, the lookup that prefers
    the file over the process environment, the start-up checks on the
    required variables, the bot token and the e-mail address, the
    `HEADLESS_MODE` switch, and `add_chat_id`.

    The `.env` file is its lines, or `None` when it cannot be opened; the
    process environment is a map. */
module Config {
  import opened Common

  // ---------------------------------------------------------------------------
  // The `.env` reader

  /** The leftmost position of `c` in `s`. */
  function FirstIndex(s: string, c: char): (r: Option<nat>)
    ensures r.Some? ==> r.value < |s| && s[r.value] == c && forall j :: 0 <= j < r.value ==> s[j] != c
    ensures r.None? ==> forall j :: 0 <= j < |s| ==> s[j] != c
  {
    if s == [] then None
    else if s[0] == c then Some(0)
    else match FirstIndex(s[1..], c)
      case None => None
      case Some(i) => Some(i + 1)
  }

  /** What one line of the file is to the reader. */
  datatype EnvLine = Skipped | Entry(key: string, value: string) | Malformed

  /** A stripped line that is empty or starts with `#` is skipped; any other
      is split at its first `=`, and both halves are stripped. A line with no
      `=` makes the two-name unpacking raise. */
  function ClassifyLine(raw: string): (r: EnvLine)
    ensures r.Skipped? <==> Strip(raw) == [] || Strip(raw)[0] == '#'
    ensures r.Malformed? <==> Strip(raw) != [] && Strip(raw)[0] != '#' && FirstIndex(Strip(raw), '=').None?
    ensures r.Entry? ==> FirstIndex(Strip(raw), '=').Some? && r == SplitEntry(Strip(raw), FirstIndex(Strip(raw), '=').value)
  {
    var l := Strip(raw);
    if l == [] || l[0] == '#' then Skipped
    else match FirstIndex(l, '=')
      case None => Malformed
      case Some(i) => SplitEntry(l, i)
  }

  /** The entry of a line split at position `i`: both halves stripped. */
  function SplitEntry(l: string, i: nat): EnvLine
    requires i < |l|
  {
    Entry(Strip(l[..i]), Strip(l[i + 1..]))
  }

  /** Every line of the file, classified. */
  function Classified(lines: seq<string>): (r: seq<EnvLine>)
    ensures |r| == |lines|
  {
    if lines == [] then [] else [ClassifyLine(lines[0])] + Classified(lines[1..])
  }

  /** Line `i` of the classified file is line `i` of the file, classified. */
  lemma {:induction false} ClassifiedAt(lines: seq<string>, i: nat)
    requires i < |lines|
    ensures Classified(lines)[i] == ClassifyLine(lines[i])
    decreases i
  {
    if i > 0 {
      ClassifiedAt(lines[1..], i - 1);
    }
  }

  /** The variables read from the classified `lines` on top of `acc`. A later
      line for the same key overwrites an earlier one; a malformed line ends
      the reading, keeping what was read before it. */
  function Env(acc: map<string, string>, lines: seq<EnvLine>): map<string, string>
    decreases |lines|
  {
    if lines == [] then acc
    else match lines[0]
      case Skipped => Env(acc, lines[1..])
      case Entry(k, v) => Env(acc[k := v], lines[1..])
      case Malformed => acc
  }

  /** What reading line `i` does to the variables read so far. */
  lemma EnvStep(acc: map<string, string>, lines: seq<EnvLine>, i: nat)
    requires i < |lines|
    ensures lines[i].Skipped? ==> Env(acc, lines[i..]) == Env(acc, lines[i + 1..])
    ensures lines[i].Entry? ==> Env(acc, lines[i..]) == Env(acc[lines[i].key := lines[i].value], lines[i + 1..])
    ensures lines[i].Malformed? ==> Env(acc, lines[i..]) == acc
  {
    assert lines[i..][0] == lines[i] && lines[i..][1..] == lines[i + 1..];
  }

  /** The reading loop over the file's lines; an unreadable file gives no
      variables. */
  method ReadEnvFile(file: Option<seq<string>>) returns (vars: map<string, string>)
    ensures vars == if file.None? then map[] else Env(map[], Classified(file.value))
  {
    vars := map[];
    if file.None? {
      return;
    }
    var lines := file.value;
    ghost var classified := Classified(lines);
    var i := 0;
    while i < |lines|
      invariant 0 <= i <= |lines|
      invariant Env(vars, classified[i..]) == Env(map[], classified)
    {
      var line := ClassifyLine(lines[i]);
      ClassifiedAt(lines, i);
      EnvStep(vars, classified, i);
      match line {
        case Skipped =>
        case Entry(k, v) =>
          vars := vars[k := v];
        case Malformed =>
          return;
      }
      i := i + 1;
    }
    assert classified[i..] == [];
  }

  /** Whatever follows a malformed line is never read. */
  lemma {:induction false} MalformedLineEndsReading(acc: map<string, string>, before: seq<EnvLine>,
                                                    after: seq<EnvLine>)
    ensures Env(acc, before + [Malformed] + after) == Env(acc, before + [Malformed])
    decreases |before|
  {
    if before == [] {
      assert ([] + [Malformed] + after)[0] == Malformed && ([] + [Malformed])[0] == Malformed;
    } else {
      var s := before + [Malformed] + after;
      var t := before + [Malformed];
      assert s[0] == before[0] && t[0] == before[0];
      assert s[1..] == before[1..] + [Malformed] + after;
      assert t[1..] == before[1..] + [Malformed];
      match before[0] {
        case Skipped =>
          MalformedLineEndsReading(acc, before[1..], after);
        case Entry(k, v) =>
          MalformedLineEndsReading(acc[k := v], before[1..], after);
        case Malformed =>
      }
    }
  }

  /** Blank and comment lines can be dropped without changing the result. */
  lemma {:induction false} SkippedLineIgnored(acc: map<string, string>, before: seq<EnvLine>,
                                              after: seq<EnvLine>)
    ensures Env(acc, before + [Skipped] + after) == Env(acc, before + after)
    decreases |before|
  {
    if before == [] {
      assert ([] + [Skipped] + after)[0] == Skipped && ([] + [Skipped] + after)[1..] == after;
      assert [] + after == after;
    } else {
      var s := before + [Skipped] + after;
      var t := before + after;
      assert s[0] == before[0] && t[0] == before[0];
      assert s[1..] == before[1..] + [Skipped] + after;
      assert t[1..] == before[1..] + after;
      match before[0] {
        case Skipped =>
          SkippedLineIgnored(acc, before[1..], after);
        case Entry(k, v) =>
          SkippedLineIgnored(acc[k := v], before[1..], after);
        case Malformed =>
      }
    }
  }

  /** Lines that are all well formed are read to the end, and the last line
      for a key decides its value. */
  lemma {:induction false} LastEntryWins(acc: map<string, string>, before: seq<EnvLine>, key: string,
                                         value: string)
    requires forall j :: 0 <= j < |before| ==> !before[j].Malformed?
    ensures Env(acc, before + [Entry(key, value)]) == Env(acc, before)[key := value]
    decreases |before|
  {
    if before == [] {
      assert ([] + [Entry(key, value)])[0] == Entry(key, value);
      assert ([] + [Entry(key, value)])[1..] == [];
    } else {
      var s := before + [Entry(key, value)];
      assert s[0] == before[0];
      assert s[1..] == before[1..] + [Entry(key, value)];
      match before[0] {
        case Skipped =>
          LastEntryWins(acc, before[1..], key, value);
        case Entry(k, v) =>
          LastEntryWins(acc[k := v], before[1..], key, value);
      }
    }
  }

  // ---------------------------------------------------------------------------
  // Lookups and checks

  /** `get_env(key, default)`: the file's value, else the process
      environment's, else the default. */
  function GetEnv(fileVars: map<string, string>, osEnv: map<string, string>, key: string,
                  default: Option<string>): (r: Option<string>)
    ensures key in fileVars ==> r == Some(fileVars[key])
    ensures key !in fileVars && key in osEnv ==> r == Some(osEnv[key])
    ensures key !in fileVars && key !in osEnv ==> r == default
  {
    if key in fileVars then Some(fileVars[key])
    else if key in osEnv then Some(osEnv[key])
    else default
  }

  /** Python truthiness of a looked-up value: `None` and `""` are false. */
  predicate Truthy(v: Option<string>) { v.Some? && v.value != "" }

  const RequiredVars: seq<string> := ["TELEGRAM_TOKEN", "USER_FIRSTNAME", "USER_LASTNAME", "USER_EMAIL"]

  /** The required names whose value is falsy, in the order they are listed. */
  function MissingVars(names: seq<string>, fileVars: map<string, string>, osEnv: map<string, string>)
    : (r: seq<string>)
    ensures |r| <= |names|
    ensures forall v :: v in r <==> v in names && !Truthy(GetEnv(fileVars, osEnv, v, None))
  {
    if names == [] then []
    else
      (if Truthy(GetEnv(fileVars, osEnv, names[0], None)) then [] else [names[0]])
      + MissingVars(names[1..], fileVars, osEnv)
  }

  /** The missing names keep the order and the repetitions of the list they
      come from: a list split in two gives the missing names of the first
      part followed by those of the second. With `MissingVarOfOne` this fixes
      the result for every list. */
  lemma {:induction false} MissingVarsKeepsOrder(a: seq<string>, b: seq<string>,
                                                 fileVars: map<string, string>, osEnv: map<string, string>)
    ensures MissingVars(a + b, fileVars, osEnv) == MissingVars(a, fileVars, osEnv) + MissingVars(b, fileVars, osEnv)
    decreases |a|
  {
    if a == [] {
      assert a + b == b;
    } else {
      assert (a + b)[0] == a[0];
      assert (a + b)[1..] == a[1..] + b;
      MissingVarsKeepsOrder(a[1..], b, fileVars, osEnv);
    }
  }

  /** A single name is listed exactly when its value is falsy. */
  lemma MissingVarOfOne(v: string, fileVars: map<string, string>, osEnv: map<string, string>)
    ensures MissingVars([v], fileVars, osEnv) == if Truthy(GetEnv(fileVars, osEnv, v, None)) then [] else [v]
  {
    assert [v][1..] == [];
  }

  /** The token check: it needs a `:`, and the part before the first one must
      be a non-empty run of digits. The answer is the error, if any. */
  function TokenError(token: string): (r: Option<string>)
    ensures r.None? <==> exists i :: 0 <= i < |token| && token[i] == ':' && ':' !in token[..i] && IsDigitString(token[..i])
  {
    match FirstIndex(token, ':')
    case None => Some("Неверный формат TELEGRAM_TOKEN. Токен должен содержать ':'")
    case Some(i) =>
      if IsDigitString(token[..i]) then None
      else Some("Первая часть токена должна быть числовым ID бота")
  }

  /** The e-mail check: present, non-empty and containing `@`. */
  predicate EmailValid(email: Option<string>) {
    email.Some? && email.value != "" && '@' in email.value
  }

  /** `HEADLESS_MODE`: the value, lower-cased, must be exactly `true`. */
  predicate HeadlessMode(value: string) {
    Lower(value) == "true"
  }

  lemma HeadlessSpellings()
    ensures HeadlessMode("true") && HeadlessMode("TRUE") && HeadlessMode("True")
    ensures !HeadlessMode("false") && !HeadlessMode("1") && !HeadlessMode("yes")
  {
    assert Lower("TRUE") == "true";
    assert Lower("True") == "true";
  }

  // ---------------------------------------------------------------------------
  // Loading the module

  datatype Settings = Settings(token: string, firstName: string, lastName: string, email: string,
                               headless: bool)

  /** What importing config/config.py gives: the settings, or the
      `ValueError` it raises. */
  datatype Loaded = Loaded(settings: Settings) | Rejected(error: string)

  /** With nothing missing, each required name has a non-empty value. */
  lemma RequiredVarsPresent(fileVars: map<string, string>, osEnv: map<string, string>)
    requires MissingVars(RequiredVars, fileVars, osEnv) == []
    ensures Truthy(GetEnv(fileVars, osEnv, "TELEGRAM_TOKEN", None))
    ensures Truthy(GetEnv(fileVars, osEnv, "USER_FIRSTNAME", None))
    ensures Truthy(GetEnv(fileVars, osEnv, "USER_LASTNAME", None))
    ensures Truthy(GetEnv(fileVars, osEnv, "USER_EMAIL", None))
  {
    assert RequiredVars[0] == "TELEGRAM_TOKEN" && RequiredVars[1] == "USER_FIRSTNAME";
    assert RequiredVars[2] == "USER_LASTNAME" && RequiredVars[3] == "USER_EMAIL";
  }

  function LoadSettings(fileVars: map<string, string>, osEnv: map<string, string>): Loaded {
    var missing := MissingVars(RequiredVars, fileVars, osEnv);
    if missing != [] then
      Rejected("Отсутствуют необходимые переменные окружения: " + Join(missing, ", "))
    else
      RequiredVarsPresent(fileVars, osEnv);
      var token := GetEnv(fileVars, osEnv, "TELEGRAM_TOKEN", None).value;
      var email := GetEnv(fileVars, osEnv, "USER_EMAIL", None);
      if TokenError(token).Some? then Rejected(TokenError(token).value)
      else if !EmailValid(email) then Rejected("Некорректный формат email в USER_EMAIL")
      else Loaded(Settings(token,
                           GetEnv(fileVars, osEnv, "USER_FIRSTNAME", None).value,
                           GetEnv(fileVars, osEnv, "USER_LASTNAME", None).value,
                           email.value,
                           HeadlessMode(GetEnv(fileVars, osEnv, "HEADLESS_MODE", Some("false")).value)))
  }

  /** Loaded settings carry every required value, non-empty, a well-formed
      token and an address with `@`; and the settings load exactly when no
      required value is missing and both checks pass. */
  lemma LoadedSettingsAreValid(fileVars: map<string, string>, osEnv: map<string, string>)
    ensures LoadSettings(fileVars, osEnv).Loaded? <==>
      (forall v :: v in RequiredVars ==> Truthy(GetEnv(fileVars, osEnv, v, None)))
      && Truthy(GetEnv(fileVars, osEnv, "TELEGRAM_TOKEN", None))
      && TokenError(GetEnv(fileVars, osEnv, "TELEGRAM_TOKEN", None).value).None?
      && Truthy(GetEnv(fileVars, osEnv, "USER_EMAIL", None))
      && '@' in GetEnv(fileVars, osEnv, "USER_EMAIL", None).value
    ensures LoadSettings(fileVars, osEnv).Loaded? ==>
      var s := LoadSettings(fileVars, osEnv).settings;
      s.token != "" && s.firstName != "" && s.lastName != "" && '@' in s.email
      && exists i :: 0 <= i < |s.token| && s.token[i] == ':' && IsDigitString(s.token[..i])
  {
    var missing := MissingVars(RequiredVars, fileVars, osEnv);
    if missing == [] {
      RequiredVarsPresent(fileVars, osEnv);
    } else {
      assert missing[0] in missing;
    }
  }

  // ---------------------------------------------------------------------------
  // add_chat_id

  predicate NoDuplicates(s: seq<int>) {
    forall i, j :: 0 <= i < j < |s| ==> s[i] != s[j]
  }

  /** telegram_users.json. */
  class ChatRegistry {
    var chatIds: seq<int>

    constructor ()
      ensures chatIds == []
    {
      chatIds := [];
    }

    /** `add_chat_id`: appends the id when it is absent and rewrites the
        file; `writable` is whether reading and writing the file succeed. */
    method AddChatId(chatId: int, writable: bool) returns (ok: bool)
      modifies this`chatIds
      ensures ok == writable
      ensures chatIds == if !writable || chatId in old(chatIds) then old(chatIds) else old(chatIds) + [chatId]
      ensures writable ==> chatId in chatIds
      ensures NoDuplicates(old(chatIds)) ==> NoDuplicates(chatIds)
    {
      if !writable {
        return false;
      }
      if chatId !in chatIds {
        chatIds := chatIds + [chatId];
      }
      ok := true;
    }
  }
}
