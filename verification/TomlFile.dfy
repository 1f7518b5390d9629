/**
 The configuration file as a layer: sections of typed values, each filed under its parameter's
 key in the string form every layer uses. The syntax of the file is a library's, so the model
 starts from the parsed table.
 */
module TomlFile {
  import opened Wrappers
  import opened Params
  import opened ParamNames
  import opened Text
  import opened Configuration
  import opened Resolution

  datatype Kind = Str | Num | Bool | SecretFile

  function KindOf(p: Param): Kind {
    match p
    case ServerHost | PidFile | DatabaseUrl | LogLevel | OtelEndpoint | OtelServiceName => Str
    case RateLimitReverseProxy | AdminConfigWrite | AdminRestartEnabled | OtelEnabled => Bool
    case ApiKeySalt | MasterApiKey | SolutionHashSecret | ImageEncryptionSecret => SecretFile
    case _ => Num
  }

  datatype Value =
    | String(text: string)
    | Integer(n: i64)
    | Boolean(flag: bool)
    | Section(items: seq<(string, Value)>)
    | OtherValue

  type Table = seq<(string, Value)>

  datatype TomlError = NotASection(section: string) | UnknownPath(path: string) | WrongKind(path: string)

  function PathOf(section: string, key: string): string {
    section + "." + key
  }

  // A value in its string form, if it is of the parameter's kind.
  function Coerced(p: Param, path: string, item: Value): Result<string, TomlError> {
    match (KindOf(p), item)
    case (Num, Integer(n)) => Success(PrintInt(n))
    case (Bool, Boolean(b)) => Success(PrintBool(b))
    case (Str, String(s)) => Success(s)
    case _ => Failure(WrongKind(path))
  }

  function WithItem(layer: Layer, section: string, key: string, item: Value): Result<Layer, TomlError> {
    var path := PathOf(section, key);
    match ByToml(path)
    case None => Failure(UnknownPath(path))
    case Some(p) =>
      var text :- Coerced(p, path, item);
      Success(layer[Known(p) := text])
  }

  function WithItems(layer: Layer, section: string, items: Table): Result<Layer, TomlError> {
    if items == [] then Success(layer)
    else
      var before :- WithItems(layer, section, items[..|items| - 1]);
      WithItem(before, section, items[|items| - 1].0, items[|items| - 1].1)
  }

  function Parsed(table: Table): Result<Layer, TomlError> {
    if table == [] then Success(map[])
    else
      var before :- Parsed(table[..|table| - 1]);
      var (section, value) := table[|table| - 1];
      if value.Section? then WithItems(before, section, value.items) else Failure(NotASection(section))
  }

  method ParseToml(table: Table) returns (r: Result<Layer, TomlError>)
    ensures r == Parsed(table)
  {
    hide WithItem;
    var layer: Layer := map[];
    for i := 0 to |table|
      invariant Parsed(table[..i]) == Success(layer)
    {
      assert table[..i + 1][..i] == table[..i];
      var (section, value) := table[i];
      if !value.Section? {
        FailsFrom(table, i + 1);
        return Failure(NotASection(section));
      }
      ghost var before := layer;
      for j := 0 to |value.items|
        invariant WithItems(before, section, value.items[..j]) == Success(layer)
      {
        assert value.items[..j + 1][..j] == value.items[..j];
        var added := WithItem(layer, section, value.items[j].0, value.items[j].1);
        if added.Failure? {
          ItemsFailFrom(before, section, value.items, j + 1);
          FailsFrom(table, i + 1);
          return Failure(added.error);
        }
        layer := added.value;
      }
      assert value.items[..|value.items|] == value.items;
    }
    assert table[..|table|] == table;
    return Success(layer);
  }

  lemma {:induction false} ItemsFailFrom(layer: Layer, section: string, items: Table, n: nat)
    requires n <= |items| && WithItems(layer, section, items[..n]).Failure?
    ensures WithItems(layer, section, items) == WithItems(layer, section, items[..n])
  {
    if n < |items| {
      assert items[..|items| - 1][..n] == items[..n];
      ItemsFailFrom(layer, section, items[..|items| - 1], n);
    } else {
      assert items[..n] == items;
    }
  }

  lemma {:induction false} FailsFrom(table: Table, n: nat)
    requires n <= |table| && Parsed(table[..n]).Failure?
    ensures Parsed(table) == Parsed(table[..n])
  {
    if n < |table| {
      assert table[..|table| - 1][..n] == table[..n];
      FailsFrom(table[..|table| - 1], n);
    } else {
      assert table[..n] == table;
    }
  }

  // ---- What a file can set -----------------------------------------------------------------

  // An entry names a known path and holds a value of its parameter's kind.
  ghost predicate Reads(section: string, key: string, item: Value) {
    var p := ByToml(PathOf(section, key));
    p.Some? && Coerced(p.value, PathOf(section, key), item).Success?
  }

  ghost predicate AllRead(section: string, items: Table) {
    forall j :: 0 <= j < |items| ==> Reads(section, items[j].0, items[j].1)
  }

  lemma {:induction false} ItemsReadIff(layer: Layer, section: string, items: Table)
    ensures WithItems(layer, section, items).Success? <==> AllRead(section, items)
  {
    hide ByToml, Coerced;
    if items != [] {
      var init := items[..|items| - 1];
      ItemsReadIff(layer, section, init);
      assert items == init + [items[|items| - 1]];
    }
  }

  /**
   A file is accepted if and only if everything at its top level is a section, and every key in
   one is a known path holding a value of its parameter's kind.
   */
  lemma {:induction false} AcceptedIff(table: Table)
    ensures Parsed(table).Success? <==>
            forall i :: 0 <= i < |table| ==> table[i].1.Section? && AllRead(table[i].0, table[i].1.items)
  {
    hide WithItems, AllRead;
    if table != [] {
      var init, last := table[..|table| - 1], table[|table| - 1];
      AcceptedIff(init);
      if Parsed(init).Success? && last.1.Section? {
        ItemsReadIff(Parsed(init).value, last.0, last.1.items);
      }
      assert table == init + [last];
    }
  }

  ghost predicate OnlyFileParameters(layer: Layer) {
    forall n :: n in layer ==> n.Known? && TomlPath(n.param).Some? && KindOf(n.param) != SecretFile
  }

  lemma {:induction false} ItemsKeepSecretsOut(layer: Layer, section: string, items: Table)
    requires OnlyFileParameters(layer) && WithItems(layer, section, items).Success?
    ensures OnlyFileParameters(WithItems(layer, section, items).value)
  {
    hide TomlPath, KindOf;
    if items != [] {
      ItemsKeepSecretsOut(layer, section, items[..|items| - 1]);
      var path := PathOf(section, items[|items| - 1].0);
      var p := ByToml(path).value;
      LookupsInvertColumns(path, p);
      SecretsHaveNoPath(p);
    }
  }

  lemma SecretsHaveNoPath(p: Param)
    ensures KindOf(p) == SecretFile <==> TomlPath(p).None?
  {
  }

  /** No file, whatever it holds, sets a secret or anything but a parameter with a path. */
  lemma {:induction false} FilesHoldNoSecrets(table: Table)
    requires Parsed(table).Success?
    ensures OnlyFileParameters(Parsed(table).value)
  {
    hide WithItems;
    if table != [] {
      var init, last := table[..|table| - 1], table[|table| - 1];
      FilesHoldNoSecrets(init);
      ItemsKeepSecretsOut(Parsed(init).value, last.0, last.1.items);
    }
  }

  // ---- Each entry keeps its place ----------------------------------------------------------

  function DotAt(p: Param): nat {
    match p
    case CleanupIntervalSeconds | AdminConfigWrite | AdminRestartEnabled => 5
    case ServerHost | ServerPort | PidFile => 6
    case DatabaseUrl | DatabaseMaxConnections => 8
    case OtelEnabled | OtelEndpoint | OtelServiceName => 9
    case RateLimitRequestsPerSecond | RateLimitBurstSize | RateLimitReverseProxy => 10
    case _ => 7
  }

  lemma OneDotLifetime(p: Param, i: nat)
    requires p == DefaultSessionTtlSeconds || p == MaxSessionTtlSeconds
    requires i < |TomlPath(p).value| && TomlPath(p).value[i] == '.'
    ensures i == DotAt(p)
  {
  }

  lemma OneDotLive(p: Param, i: nat)
    requires ReloadOf(p) == Live && p != DefaultSessionTtlSeconds && p != MaxSessionTtlSeconds
    requires i < |TomlPath(p).value| && TomlPath(p).value[i] == '.'
    ensures i == DotAt(p)
  {
  }

  lemma OneDotStorable(p: Param, i: nat)
    requires ReloadOf(p) == Boot && PersistOf(p) == Allowed && TomlPath(p).Some?
    requires i < |TomlPath(p).value| && TomlPath(p).value[i] == '.'
    ensures i == DotAt(p)
  {
  }

  lemma OneDotNeverStored(p: Param, i: nat)
    requires PersistOf(p) == Never && TomlPath(p).Some?
    requires i < |TomlPath(p).value| && TomlPath(p).value[i] == '.'
    ensures i == DotAt(p)
  {
  }

  lemma OneDot(p: Param, i: nat)
    requires TomlPath(p).Some? && i < |TomlPath(p).value| && TomlPath(p).value[i] == '.'
    ensures i == DotAt(p)
  {
    hide TomlPath, DotAt;
    if p == DefaultSessionTtlSeconds || p == MaxSessionTtlSeconds {
      OneDotLifetime(p, i);
    } else if ReloadOf(p) == Live {
      OneDotLive(p, i);
    } else if PersistOf(p) == Allowed {
      OneDotStorable(p, i);
    } else {
      OneDotNeverStored(p, i);
    }
  }

  /**
   A parameter's path comes from one section and one key only, so no two entries of a file are
   for the same parameter.
   */
  lemma PathSplitsOneWay(section: string, key: string, other: string, name: string)
    requires ByToml(PathOf(section, key)).Some?
    requires ByToml(PathOf(section, key)) == ByToml(PathOf(other, name))
    ensures section == other && key == name
  {
    hide TomlPath, DotAt, ByToml;
    var p := ByToml(PathOf(section, key)).value;
    LookupsInvertColumns(PathOf(section, key), p);
    LookupsInvertColumns(PathOf(other, name), p);
    var path := PathOf(section, key);
    assert path[|section|] == '.' && PathOf(other, name)[|other|] == '.';
    OneDot(p, |section|);
    OneDot(p, |other|);
    assert path[..|section|] == section && path[|section| + 1..] == key;
    assert path[..|other|] == other && path[|other| + 1..] == name;
  }

  ghost predicate KeysOnce(table: Table) {
    forall i, j :: 0 <= i < j < |table| ==> table[i].0 != table[j].0
  }

  // `text` is what the layer holds for the entry at this path.
  ghost predicate Holds(layer: Layer, section: string, key: string, item: Value) {
    var path := PathOf(section, key);
    var p := ByToml(path);
    p.Some? && Known(p.value) in layer && Coerced(p.value, path, item) == Success(layer[Known(p.value)])
  }

  lemma ItemHolds(layer: Layer, section: string, key: string, item: Value)
    requires WithItem(layer, section, key, item).Success?
    ensures Holds(WithItem(layer, section, key, item).value, section, key, item)
  {
  }

  lemma ItemLeavesOthers(layer: Layer, section: string, key: string, item: Value,
                         other: string, name: string, was: Value)
    requires WithItem(layer, section, key, item).Success? && Holds(layer, other, name, was)
    requires section != other || key != name
    ensures Holds(WithItem(layer, section, key, item).value, other, name, was)
  {
    hide ByToml, Coerced;
    if ByToml(PathOf(section, key)) == ByToml(PathOf(other, name)) {
      PathSplitsOneWay(section, key, other, name);
    }
  }

  lemma {:induction false} ItemsLeaveOthers(layer: Layer, section: string, items: Table,
                                            other: string, name: string, was: Value)
    requires WithItems(layer, section, items).Success? && Holds(layer, other, name, was)
    requires section != other
    ensures Holds(WithItems(layer, section, items).value, other, name, was)
  {
    hide WithItem, Holds;
    if items != [] {
      var init, last := items[..|items| - 1], items[|items| - 1];
      ItemsLeaveOthers(layer, section, init, other, name, was);
      ItemLeavesOthers(WithItems(layer, section, init).value, section, last.0, last.1, other, name, was);
    }
  }

  lemma {:induction false} ItemsHold(layer: Layer, section: string, items: Table, j: nat)
    requires WithItems(layer, section, items).Success? && KeysOnce(items) && j < |items|
    ensures Holds(WithItems(layer, section, items).value, section, items[j].0, items[j].1)
  {
    hide WithItem, Holds;
    var init, last := items[..|items| - 1], items[|items| - 1];
    var before := WithItems(layer, section, init).value;
    if j < |init| {
      ItemsHold(layer, section, init, j);
      ItemLeavesOthers(before, section, last.0, last.1, section, items[j].0, items[j].1);
    } else {
      ItemHolds(before, section, last.0, last.1);
    }
  }

  /** Every entry of an accepted file is in the layer, under its parameter's key, as it was written. */
  lemma {:induction false} EntriesHold(table: Table, i: nat, j: nat)
    requires Parsed(table).Success? && KeysOnce(table)
    requires i < |table| && table[i].1.Section? && KeysOnce(table[i].1.items) && j < |table[i].1.items|
    ensures Holds(Parsed(table).value, table[i].0, table[i].1.items[j].0, table[i].1.items[j].1)
  {
    hide WithItems, Holds;
    var init, last := table[..|table| - 1], table[|table| - 1];
    if i < |init| {
      EntriesHold(init, i, j);
      var entry := table[i].1.items[j];
      ItemsLeaveOthers(Parsed(init).value, last.0, last.1.items, table[i].0, entry.0, entry.1);
    } else {
      ItemsHold(Parsed(init).value, last.0, last.1.items, j);
    }
  }

  // `text` says what the value does, to whoever parses it.
  ghost predicate Says(item: Value, text: string) {
    match item
    case String(s) => text == s
    case Integer(n) => ParseSigned(text) == Some(n)
    case Boolean(b) => ParseBoolStrict(text) == Some(b) && ParseBoolLenient(text) == Some(b)
    case _ => false
  }

  lemma HoldsAndSays(layer: Layer, section: string, key: string, item: Value)
    requires Holds(layer, section, key, item)
    ensures exists p :: TomlPath(p) == Some(section + "." + key) && Known(p) in layer && Says(item, layer[Known(p)])
  {
    hide TomlPath, ByToml, PrintInt, PrintBool, ParseBoolStrict, ParseBoolLenient;
    var p := ByToml(PathOf(section, key)).value;
    LookupsInvertColumns(PathOf(section, key), p);
    match item {
      case Integer(n) => SignedRoundTrip(n);
      case Boolean(b) => BoolRoundTrip(b);
      case _ =>
    }
  }

  /**
   So a file means what it says: under the key of the parameter whose path an entry spells is a text
   that reads back as the entry's own value.
   */
  lemma EntriesSay(table: Table, i: nat, j: nat)
    requires Parsed(table).Success? && KeysOnce(table)
    requires i < |table| && table[i].1.Section? && KeysOnce(table[i].1.items) && j < |table[i].1.items|
    ensures var (section, (key, item)) := (table[i].0, table[i].1.items[j]);
            var layer := Parsed(table).value;
            exists p :: TomlPath(p) == Some(section + "." + key) && Known(p) in layer && Says(item, layer[Known(p)])
  {
    hide Parsed, Holds, TomlPath, Says, KeysOnce;
    EntriesHold(table, i, j);
    HoldsAndSays(Parsed(table).value, table[i].0, table[i].1.items[j].0, table[i].1.items[j].1);
  }

  ghost predicate IsFlag(text: string) {
    text == "true" || text == "false"
  }

  ghost predicate IsNumber(text: string) {
    exists n :: text == PrintInt(n)
  }

  /**
   The kind a file must give a parameter is that of the field it sets: a flag where the field is
   always printed as one, a number where it always is, and otherwise a string.
   */
  lemma KindsAreTheFields(p: Param)
    ensures KindOf(p) == Bool <==> forall c: Config :: IsFlag(FieldValue(c, p))
    ensures KindOf(p) == Num <==> forall c: Config :: IsNumber(FieldValue(c, p))
  {
    hide IsFlag, IsNumber, PrintInt, PrintBool, ParseBoolStrict, ParseBoolLenient;
    var c := EveryText("x");
    LetterIsNeither();
    NumbersAreNoFlags(c.serverPort);
    forall b { FlagsAreFlags(b); }
    forall n { NumbersAreNoFlags(n); }
    var flag, number := IsFlag(FieldValue(c, p)), IsNumber(FieldValue(c, p));
  }

  // A configuration whose every text is the one given.
  function EveryText(t: string): Config {
    Config(t, 0, t, t, 0, t, t, t, t, 0, 0, 0, 0, 0, 0, false, 0, false, false, t, false, t, t)
  }

  lemma LetterIsNeither()
    ensures !IsFlag("x") && !IsNumber("x")
  {
    forall n ensures "x" != PrintInt(n) {
      SignShows(n);
      assert IsDigit(PrintNat(if n < 0 then -n else n)[0]);
    }
  }

  lemma FlagsAreFlags(b: bool)
    ensures IsFlag(PrintBool(b)) && !IsNumber(PrintBool(b))
  {
    forall n ensures PrintBool(b) != PrintInt(n) {
      assert PrintBool(b)[0] == 't' || PrintBool(b)[0] == 'f';
      SignShows(n);
      assert IsDigit(PrintNat(if n < 0 then -n else n)[0]);
    }
  }

  lemma NumbersAreNoFlags(n: int)
    ensures IsNumber(PrintInt(n)) && !IsFlag(PrintInt(n))
  {
    SignShows(n);
    assert IsDigit(PrintNat(if n < 0 then -n else n)[0]);
  }

  // ---- What the resolver makes of it -------------------------------------------------------

  // The integers a numeric field takes.
  function Range(p: Param): (int, int) {
    match p
    case ServerPort => (0, 65535)
    case DatabaseMaxConnections | RateLimitBurstSize => (0, 4_294_967_295)
    case CaptchaCompression => (0, 255)
    case MaxValidationAttempts => (-9_223_372_036_854_775_808, 9_223_372_036_854_775_807)
    case _ => (0, 18_446_744_073_709_551_615)
  }

  lemma NegativeIsNoUnsigned(n: int, max: nat)
    requires n < 0
    ensures ParseUnsigned(PrintInt(n), max) == None
  {
    var s := PrintInt(n);
    assert s[0] == '-';
    MinusIsNoDigit(s);
  }

  lemma {:induction false} MinusIsNoDigit(s: string)
    requires s != "" && s[0] == '-'
    ensures Decimal(s) == None
  {
    if |s| > 1 {
      MinusIsNoDigit(s[..|s| - 1]);
    }
  }

  lemma UnsignedReadsIff(n: i64, max: nat, p: Param, default: string)
    ensures ReadUnsigned(p, Some(PrintInt(n)), default, max)
            == if 0 <= n <= max then Success(n) else Failure(Invalid(p))
  {
    if n < 0 {
      NegativeIsNoUnsigned(n, max);
    } else if n <= max {
      UnsignedRoundTrip(n, max);
    } else {
      PrintedNatValue(n);
      assert IsDigit(PrintNat(n)[0]);
    }
  }

  /**
   What a file holds is what the resolver reads: strings and booleans as they stand, and an
   integer if and only if it is in its field's range, compression being clamped to 1 and 100.
   */
  lemma FileValueReads(p: Param, path: string, item: Value, salt: string)
    requires Coerced(p, path, item).Success?
    ensures var text := Coerced(p, path, item).value;
            var read := Canonical(p, Some(text), salt);
            if item.Integer? then
              if Range(p).0 <= item.n <= Range(p).1
              then read == Success(if p == CaptchaCompression then PrintInt(Clamp(item.n)) else text)
              else read == Failure(Invalid(p))
            else read == Success(text)
  {
    hide ReadUnsigned, ReadSigned, ParseBoolLenient, ParseBoolStrict, ByteLen, PrintInt, PrintBool, Clamp;
    BoolRoundTrip(true);
    BoolRoundTrip(false);
    if item.Integer? {
      match p {
        case ServerPort => UnsignedReadsIff(item.n, U16_MAX, p, "3000");
        case DatabaseMaxConnections => UnsignedReadsIff(item.n, U32_MAX, p, "5");
        case DefaultSessionTtlSeconds => UnsignedReadsIff(item.n, U64_MAX, p, "300");
        case MaxSessionTtlSeconds => UnsignedReadsIff(item.n, U64_MAX, p, "3600");
        case MaxValidationAttempts => SignedStable(item.n, p, "3");
        case CaptchaCompression => UnsignedReadsIff(item.n, U8_MAX, p, "40");
        case CleanupIntervalSeconds => UnsignedReadsIff(item.n, U64_MAX, p, "60");
        case RateLimitRequestsPerSecond => UnsignedReadsIff(item.n, U64_MAX, p, "2");
        case RateLimitBurstSize => UnsignedReadsIff(item.n, U32_MAX, p, "10");
        case _ =>
      }
    }
  }
}
