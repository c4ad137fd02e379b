/** The command line the controller writes for a build job, and the configuration the
    job reads from it. */
module JobArgs {
  import opened BuildTypes
  import opened Text

  datatype Broker = Broker(kind: string, uri: string, queue: string)

  datatype Config = Config(
    layerCaching: bool,
    pluginPath: string,
    broker: Option<Broker>,
    fullPrivilege: bool,
    istio: bool)

  /** What the build command runs with. */
  datatype JobOptions = JobOptions(resource: string, layerCaching: bool, pluginPath: string, broker: Option<Broker>)

  datatype Flag = Resource | LayerCaching | PluginPath | MessageBroker | AmqpUri | AmqpQueue

  function FlagText(flag: Flag): string {
    match flag
    case Resource => "--resource"
    case LayerCaching => "--enable-layer-caching"
    case PluginPath => "--preparer-plugins-path"
    case MessageBroker => "--message-broker"
    case AmqpUri => "--amqp-uri"
    case AmqpQueue => "--amqp-queue"
  }

  const FORGE := ["/usr/bin/forge", "build"]

  const DEFAULT_QUEUE := "forge-status-update"

  lemma FlagTextsDistinct(flag: Flag, other: Flag)
    requires FlagText(flag) == FlagText(other)
    ensures flag == other
  {
    assert |FlagText(flag)| == |FlagText(other)|;
    assert FlagText(flag)[7] == FlagText(other)[7];
  }

  function BoolText(b: bool): string {
    if b then "true" else "false"
  }

  datatype Setting = Setting(flag: Flag, value: string)

  function Render(setting: Setting): string {
    FlagText(setting.flag) + "=" + setting.value
  }

  function RenderAll(settings: seq<Setting>): seq<string> {
    seq(|settings|, i requires 0 <= i < |settings| => Render(settings[i]))
  }

  lemma RenderConcat(first: seq<Setting>, second: seq<Setting>)
    ensures RenderAll(first + second) == RenderAll(first) + RenderAll(second)
  {
  }

  /** A build may override the queue its messages go to. */
  function Queue(broker: Broker, override: string): string {
    if override != "" then override else broker.queue
  }

  function PluginSettings(config: Config): seq<Setting> {
    if config.pluginPath != "" then [Setting(PluginPath, config.pluginPath)] else []
  }

  function BrokerSettings(override: string, config: Config): seq<Setting> {
    match config.broker
    case None => []
    case Some(b) => [Setting(MessageBroker, b.kind), Setting(AmqpUri, b.uri), Setting(AmqpQueue, Queue(b, override))]
  }

  function SettingsFor(name: string, override: string, config: Config): seq<Setting> {
    [Setting(Resource, name), Setting(LayerCaching, BoolText(config.layerCaching))]
    + PluginSettings(config) + BrokerSettings(override, config)
  }

  function Words(name: string, override: string, config: Config): seq<string> {
    (if config.fullPrivilege then [] else ["rootlesskit"])
    + FORGE + RenderAll(SettingsFor(name, override, config))
  }

  /** `epilogue` is the text that follows on a line of its own when Istio support is on. */
  function CommandText(name: string, override: string, config: Config, epilogue: string): string {
    Join(Words(name, override, config) + (if config.istio then ["\n" + epilogue] else []), ' ')
  }

  /** The words of the command; a queue of the build's own replaces the configured one. */
  ghost predicate AreWords(words: seq<string>, name: string, override: string, config: Config) {
    words == (if config.fullPrivilege then [] else ["rootlesskit"])
             + ["/usr/bin/forge", "build", "--resource=" + name,
                "--enable-layer-caching=" + if config.layerCaching then "true" else "false"]
             + (if config.pluginPath == "" then [] else ["--preparer-plugins-path=" + config.pluginPath])
             + (match config.broker
                case None => []
                case Some(b) => ["--message-broker=" + b.kind, "--amqp-uri=" + b.uri,
                                 "--amqp-queue=" + if override == "" then b.queue else override])
  }

  lemma WordsAre(name: string, override: string, config: Config)
    ensures AreWords(Words(name, override, config), name, override, config)
  {
    var base := [Setting(Resource, name), Setting(LayerCaching, BoolText(config.layerCaching))];
    RenderConcat(base + PluginSettings(config), BrokerSettings(override, config));
    RenderConcat(base, PluginSettings(config));
    RenderedBase(name, config);
    RenderedBroker(override, config);
  }

  lemma RenderedBase(name: string, config: Config)
    ensures RenderAll([Setting(Resource, name), Setting(LayerCaching, BoolText(config.layerCaching))]) ==
            ["--resource=" + name, "--enable-layer-caching=" + if config.layerCaching then "true" else "false"]
    ensures RenderAll(PluginSettings(config)) ==
            if config.pluginPath == "" then [] else ["--preparer-plugins-path=" + config.pluginPath]
  {
    assert FlagText(Resource) + "=" == "--resource=";
    assert FlagText(LayerCaching) + "=" == "--enable-layer-caching=";
    assert FlagText(PluginPath) + "=" == "--preparer-plugins-path=";
  }

  lemma RenderedBroker(override: string, config: Config)
    ensures RenderAll(BrokerSettings(override, config)) ==
            match config.broker
            case None => []
            case Some(b) => ["--message-broker=" + b.kind, "--amqp-uri=" + b.uri,
                             "--amqp-queue=" + if override == "" then b.queue else override]
  {
    assert FlagText(MessageBroker) + "=" == "--message-broker=";
    assert FlagText(AmqpUri) + "=" == "--amqp-uri=";
    assert FlagText(AmqpQueue) + "=" == "--amqp-queue=";
  }

  /** The flags of the build command. */
  method FlagArgs(name: string, override: string, config: Config) returns (args: seq<string>)
    ensures args == RenderAll(SettingsFor(name, override, config))
  {
    var settings := [Setting(Resource, name), Setting(LayerCaching, BoolText(config.layerCaching))];
    if config.pluginPath != "" {
      settings := settings + [Setting(PluginPath, config.pluginPath)];
    }
    if config.broker.Some? {
      var opts := config.broker.value;
      var queue := opts.queue;
      if override != "" { queue := override; }
      settings := settings + [Setting(MessageBroker, opts.kind), Setting(AmqpUri, opts.uri), Setting(AmqpQueue, queue)];
    }
    args := [];
    for i := 0 to |settings|
      invariant args == RenderAll(settings[..i])
    {
      RenderConcat(settings[..i], [settings[i]]);
      assert settings[..i + 1] == settings[..i] + [settings[i]];
      args := args + [Render(settings[i])];
    }
    assert settings[..|settings|] == settings;
    assert settings == SettingsFor(name, override, config);
  }

  /** The arguments of the container's shell. */
  method PrepareJobArgs(name: string, override: string, config: Config, epilogue: string) returns (r: seq<string>)
    ensures r == ["-c", CommandText(name, override, config, epilogue)]
    ensures forall words :: AreWords(words, name, override, config) ==>
              r == ["-c", Join(words + (if config.istio then ["\n" + epilogue] else []), ' ')]
  {
    WordsAre(name, override, config);
    var args := FlagArgs(name, override, config);
    args := FORGE + args;
    if !config.fullPrivilege {
      args := ["rootlesskit"] + args;
    }
    assert args == Words(name, override, config) && args + [] == args;
    if config.istio {
      args := args + ["\n" + epilogue];
    }
    return ["-c", Join(args, ' ')];
  }

  function NonEmpty(words: seq<string>): seq<string> {
    if words == [] then [] else (if words[0] == "" then [] else [words[0]]) + NonEmpty(words[1..])
  }

  /** Characters the shell acts on wherever they stand in a word: tabs end it, and the others quote, expand or
      end the command. */
  predicate IsSpecial(c: char) {
    || c == '\t' || c == '\'' || c == '"' || c == '\\' || c == '$' || c == '`' || c == '&' || c == '|' || c == ';'
    || c == '<' || c == '>' || c == '(' || c == ')' || c == '*' || c == '?' || c == '[' || c == '{'
  }

  predicate HasSpecial(s: string) {
    exists c :: c in s && IsSpecial(c)
  }

  function FirstLine(script: string): string {
    var line := Cut(script, '\n');
    if line.Some? then line.value.0 else script
  }

  /** The words of the first command of a script; None where the shell does more than split at blanks. */
  function ShellWords(script: string): Option<seq<string>> {
    if HasSpecial(FirstLine(script)) then None else Some(NonEmpty(Split(FirstLine(script), ' ')))
  }

  /** The text stands for itself inside a word. */
  ghost predicate Literal(s: string) {
    ' ' !in s && '\n' !in s && !HasSpecial(s)
  }

  /** The last setting of a flag, by its text, among words of the form flag=value. */
  function FlagValue(words: seq<string>, flag: string): Option<string> {
    if words == [] then None
    else
      var last := Cut(words[|words| - 1], '=');
      if last.Some? && last.value.0 == flag then Some(last.value.1) else FlagValue(words[..|words| - 1], flag)
  }

  function Or(value: Option<string>, default: string): string {
    if value.Some? then value.value else default
  }

  function Lower(s: string): string {
    seq(|s|, i requires 0 <= i < |s| => if 'A' <= s[i] <= 'Z' then (s[i] as int + 32) as char else s[i])
  }

  const AMQP := "amqp"

  predicate ValidBroker(broker: Broker) {
    broker.kind == AMQP && broker.uri != "" && broker.queue != ""
  }

  /** The broker set-up of the main and of the build command: none, or a valid one. */
  function BrokerFrom(kind: string, uri: string, queue: string): Result<Option<Broker>> {
    var broker := Broker(Lower(kind), uri, queue);
    if kind == "" then Ok(None) else if ValidBroker(broker) then Ok(Some(broker)) else Err
  }

  function ParseBool(s: string): Result<bool> {
    if s in {"1", "t", "T", "true", "TRUE", "True"} then Ok(true)
    else if s in {"0", "f", "F", "false", "FALSE", "False"} then Ok(false) else Err
  }

  /** Flag parsing of the build command; the resource flag is required. */
  function ReadOptions(words: seq<string>, defaultPlugins: string): Result<JobOptions> {
    var resource := FlagValue(words, FlagText(Resource));
    var caching := ParseBool(Or(FlagValue(words, FlagText(LayerCaching)), "false"));
    var broker := BrokerFrom(Or(FlagValue(words, FlagText(MessageBroker)), ""),
                             Or(FlagValue(words, FlagText(AmqpUri)), ""),
                             Or(FlagValue(words, FlagText(AmqpQueue)), DEFAULT_QUEUE));
    if resource.None? || caching.Err? || broker.Err? then Err
    else
      var plugins := Or(FlagValue(words, FlagText(PluginPath)), defaultPlugins);
      Ok(JobOptions(resource.value, caching.value, plugins, broker.value))
  }

  ghost predicate LiteralSettings(settings: seq<Setting>) {
    forall i :: 0 <= i < |settings| ==> Literal(settings[i].value)
  }

  lemma {:induction false} NonEmptyKeeps(words: seq<string>)
    requires forall w :: w in words ==> w != ""
    ensures NonEmpty(words) == words && NonEmpty(words + [""]) == words
  {
    if words == [] {
      assert words + [""] == [""];
    } else {
      assert words[0] in words && forall w :: w in words[1..] ==> w in words;
      NonEmptyKeeps(words[1..]);
      assert (words + [""])[1..] == words[1..] + [""];
    }
  }

  lemma {:induction false} JoinLast(words: seq<string>, last: string)
    requires words != []
    ensures Join(words + [last], ' ') == Join(words, ' ') + [' '] + last
  {
    if |words| == 1 {
      assert (words + [last])[1..] == [last];
    } else {
      JoinLast(words[1..], last);
      assert (words + [last])[1..] == words[1..] + [last];
    }
  }

  lemma {:induction false} JoinIsLiteral(words: seq<string>)
    requires forall w :: w in words ==> Literal(w)
    ensures '\n' !in Join(words, ' ') && !HasSpecial(Join(words, ' '))
  {
    if |words| > 1 {
      assert words[0] in words && forall w :: w in words[1..] ==> w in words;
      JoinIsLiteral(words[1..]);
      forall c | c in Join(words, ' ') ensures c != '\n' && !IsSpecial(c) {
        assert c in words[0] || c == ' ' || c in Join(words[1..], ' ');
      }
    } else if |words| == 1 {
      assert words[0] in words;
    }
  }

  lemma {:induction false} SplitChars(s: string, sep: char)
    ensures forall p, c :: p in Split(s, sep) && c in p ==> c in s
  {
    if s != [] {
      SplitChars(s[1..], sep);
      var rest := Split(s[1..], sep);
      forall p, c | p in Split(s, sep) && c in p ensures c in s {
        assert rest[0] in rest;
        assert p == "" || p in rest || p == [s[0]] + rest[0];
      }
    }
  }

  lemma {:induction false} NonEmptySelects(words: seq<string>)
    ensures forall w :: w in NonEmpty(words) ==> w in words
  {
    if words != [] { NonEmptySelects(words[1..]); }
  }

  /** Whatever the shell splits off stands for itself. */
  lemma ShellWordsAreLiteral(script: string)
    requires ShellWords(script).Some?
    ensures forall w :: w in ShellWords(script).value ==> Literal(w)
  {
    var line := FirstLine(script);
    SplitChars(line, ' ');
    NonEmptySelects(Split(line, ' '));
    forall w | w in ShellWords(script).value ensures Literal(w) {
      assert w in Split(line, ' ');
    }
  }

  lemma BlankIsNotSpecial(line: string)
    requires !HasSpecial(line)
    ensures !HasSpecial(line + [' '])
  {
    forall c | c in line + [' '] ensures !IsSpecial(c) { assert c in line || c == ' '; }
  }

  lemma FirstLineOfOne(line: string)
    requires '\n' !in line
    ensures FirstLine(line) == line
  {
  }

  lemma FirstLineOfTwo(words: seq<string>, tail: string)
    requires words != [] && '\n' !in Join(words, ' ')
    ensures FirstLine(Join(words + ["\n" + tail], ' ')) == Join(words, ' ') + [' ']
  {
    var line := Join(words, ' ');
    JoinLast(words, "\n" + tail);
    assert line + [' '] + ("\n" + tail) == (line + [' ']) + ['\n'] + tail;
    CutAt(line + [' '], tail, '\n');
  }

  lemma SplitsToWords(words: seq<string>)
    requires words != [] && forall w :: w in words ==> w != "" && Literal(w)
    ensures NonEmpty(Split(Join(words, ' '), ' ')) == words
    ensures NonEmpty(Split(Join(words, ' ') + [' '], ' ')) == words
  {
    SplitJoin(words, ' ');
    NonEmptyKeeps(words);
    JoinLast(words, "");
    assert Join(words, ' ') + [' '] + "" == Join(words, ' ') + [' '];
    SplitJoin(words + [""], ' ');
  }

  /** The shell sees the words that were joined, with or without a second line. */
  lemma ShellSplitsWords(words: seq<string>, tail: string)
    requires words != [] && forall w :: w in words ==> w != "" && Literal(w)
    ensures ShellWords(Join(words, ' ')) == Some(words)
    ensures ShellWords(Join(words + ["\n" + tail], ' ')) == Some(words)
  {
    JoinIsLiteral(words);
    FirstLineOfOne(Join(words, ' '));
    FirstLineOfTwo(words, tail);
    BlankIsNotSpecial(Join(words, ' '));
    SplitsToWords(words);
  }

  /** What settings say about a flag. */
  function SettingOf(settings: seq<Setting>, flag: Flag): Option<string> {
    if settings == [] then None
    else if settings[|settings| - 1].flag == flag then Some(settings[|settings| - 1].value)
    else SettingOf(settings[..|settings| - 1], flag)
  }

  lemma FlagHasNoEquals(flag: Flag)
    ensures '=' !in FlagText(flag) && Literal(FlagText(flag) + "=")
  {
    assert forall i :: 0 <= i < |FlagText(flag)| ==> FlagText(flag)[i] == '-' || 'a' <= FlagText(flag)[i] <= 'z';
  }

  /** Words that read back as the settings give each flag its setting. */
  lemma {:induction false} FlagsReadBack(prefix: seq<string>, words: seq<string>, settings: seq<Setting>,
                                         flag: Flag, text: string)
    requires forall w :: w in prefix ==> '=' !in w
    requires |words| == |settings| && forall i :: 0 <= i < |words| ==> ReadsAs(words[i], settings[i], flag, text)
    ensures FlagValue(prefix + words, text) == SettingOf(settings, flag)
  {
    if settings == [] {
      assert prefix + words == prefix;
      NoFlags(prefix, text);
    } else {
      var n := |settings| - 1;
      assert prefix + words == (prefix + words[..n]) + [words[n]];
      FlagValueLast(prefix + words[..n], words[n], settings[n], flag, text);
      FlagsReadBack(prefix, words[..n], settings[..n], flag, text);
    }
  }

  lemma FlagValueLast(words: seq<string>, word: string, setting: Setting, flag: Flag, text: string)
    requires ReadsAs(word, setting, flag, text)
    ensures FlagValue(words + [word], text) ==
            if setting.flag == flag then Some(setting.value) else FlagValue(words, text)
  {
    assert (words + [word])[..|words|] == words;
  }

  ghost predicate ReadsAs(word: string, setting: Setting, flag: Flag, text: string) {
    var parts := Cut(word, '=');
    parts.Some? && parts.value.1 == setting.value && (parts.value.0 == text <==> setting.flag == flag)
  }

  lemma RenderReadsBack(setting: Setting, flag: Flag)
    ensures ReadsAs(Render(setting), setting, flag, FlagText(flag))
  {
    FlagHasNoEquals(setting.flag);
    CutAt(FlagText(setting.flag), setting.value, '=');
    if FlagText(setting.flag) == FlagText(flag) { FlagTextsDistinct(setting.flag, flag); }
  }

  lemma {:induction false} NoFlags(words: seq<string>, flag: string)
    requires forall w :: w in words ==> '=' !in w
    ensures FlagValue(words, flag) == None
  {
    if words != [] {
      assert words[|words| - 1] in words;
      NoFlags(words[..|words| - 1], flag);
    }
  }

  /** A rendered setting stands for itself exactly when its value does. */
  lemma RenderIsLiteral(setting: Setting)
    ensures Literal(Render(setting)) <==> Literal(setting.value)
  {
    var flag := FlagText(setting.flag) + "=";
    FlagHasNoEquals(setting.flag);
    assert Render(setting) == flag + setting.value;
    forall c ensures c in Render(setting) <==> c in flag || c in setting.value { }
  }

  lemma CommandIsLiteral()
    ensures Literal("rootlesskit") && Literal(FORGE[0]) && Literal(FORGE[1])
  {
  }

  /** Fixed words that stand for themselves, followed by rendered settings. */
  lemma RenderedAreLiteral(prefix: seq<string>, settings: seq<Setting>)
    requires forall w :: w in prefix ==> Literal(w)
    ensures (forall w :: w in prefix + RenderAll(settings) ==> Literal(w)) <==> LiteralSettings(settings)
  {
    var words := prefix + RenderAll(settings);
    forall i | 0 <= i < |settings|
      ensures words[|prefix| + i] == RenderAll(settings)[i]
      ensures Literal(RenderAll(settings)[i]) <==> Literal(settings[i].value)
    {
      RenderIsLiteral(settings[i]);
    }
    if LiteralSettings(settings) {
      forall k | 0 <= k < |words| ensures Literal(words[k]) {
        if k < |prefix| { assert words[k] in prefix; } else { assert words[k] == RenderAll(settings)[k - |prefix|]; }
      }
    } else {
      var i :| 0 <= i < |settings| && !Literal(settings[i].value);
      assert words[|prefix| + i] in words;
    }
  }

  lemma WordsAreLiteral(name: string, override: string, config: Config)
    ensures (forall w :: w in Words(name, override, config) ==> Literal(w))
            <==> LiteralSettings(SettingsFor(name, override, config))
  {
    CommandIsLiteral();
    var prefix := (if config.fullPrivilege then [] else ["rootlesskit"]) + FORGE;
    RenderedAreLiteral(prefix, SettingsFor(name, override, config));
  }

  /** The text has no character the shell acts on. */
  ghost predicate Plain(s: string) {
    forall c :: c in s ==> c !in " \n\t'\"\\$`&|;<>()*?[{"
  }

  /** The property holds of everything the controller puts into the command. */
  ghost predicate Every(p: string -> bool, name: string, override: string, config: Config) {
    && p(name) && p(config.pluginPath)
    && (config.broker.Some? ==>
          && p(config.broker.value.kind) && p(config.broker.value.uri)
          && p(if override == "" then config.broker.value.queue else override))
  }

  lemma LiteralIsPlain(s: string)
    ensures Literal(s) <==> Plain(s)
  {
    forall c ensures c in " \n\t'\"\\$`&|;<>()*?[{" <==> c == ' ' || c == '\n' || IsSpecial(c) { }
  }

  ghost predicate EachValue(p: string -> bool, settings: seq<Setting>) {
    forall setting :: setting in settings ==> p(setting.value)
  }

  lemma EveryValue(p: string -> bool, name: string, override: string, config: Config)
    requires p("true") && p("false") && p("")
    ensures EachValue(p, SettingsFor(name, override, config)) <==> Every(p, name, override, config)
  {
    var settings := SettingsFor(name, override, config);
    assert Setting(Resource, name) in settings && (config.pluginPath != "" ==> PluginSettings(config)[0] in settings);
    if config.broker.Some? {
      var b := BrokerSettings(override, config);
      assert b[0] in settings && b[1] in settings && b[2] in settings;
    }
  }

  lemma LiteralSettingsArePlain(settings: seq<Setting>)
    ensures LiteralSettings(settings) <==> EachValue(Plain, settings)
  {
    forall i | 0 <= i < |settings| ensures Literal(settings[i].value) <==> Plain(settings[i].value) {
      LiteralIsPlain(settings[i].value);
    }
  }

  lemma FixedValuesArePlain()
    ensures Plain("true") && Plain("false") && Plain("")
  {
  }

  lemma SettingsArePlain(name: string, override: string, config: Config)
    ensures LiteralSettings(SettingsFor(name, override, config)) <==> Every(Plain, name, override, config)
  {
    FixedValuesArePlain();
    EveryValue(Plain, name, override, config);
    LiteralSettingsArePlain(SettingsFor(name, override, config));
  }

  lemma WordsReadBack(name: string, override: string, config: Config, flag: Flag)
    ensures FlagValue(Words(name, override, config), FlagText(flag)) ==
            SettingOf(SettingsFor(name, override, config), flag)
  {
    var settings := SettingsFor(name, override, config);
    var prefix := (if config.fullPrivilege then [] else ["rootlesskit"]) + FORGE;
    forall i | 0 <= i < |settings| ensures ReadsAs(RenderAll(settings)[i], settings[i], flag, FlagText(flag)) {
      RenderReadsBack(settings[i], flag);
    }
    FlagsReadBack(prefix, RenderAll(settings), settings, flag, FlagText(flag));
  }

  /** The shell splits the command into the words that were joined if and only if every setting stands for
      itself: nothing is quoted. */
  lemma CommandSplits(name: string, override: string, config: Config, epilogue: string)
    ensures ShellWords(CommandText(name, override, config, epilogue)) == Some(Words(name, override, config))
            <==> Every(Plain, name, override, config)
  {
    SettingsArePlain(name, override, config);
    var words, text := Words(name, override, config), CommandText(name, override, config, epilogue);
    WordsAreLiteral(name, override, config);
    if LiteralSettings(SettingsFor(name, override, config)) {
      ShellSplitsWords(words, epilogue);
      assert words + [] == words;
    } else if ShellWords(text).Some? {
      ShellWordsAreLiteral(text);
    }
  }

  /** So a blank in the plugin path breaks the command. */
  lemma BlankBreaksCommand(name: string, override: string, config: Config, epilogue: string)
    requires ' ' in config.pluginPath
    ensures ShellWords(CommandText(name, override, config, epilogue)) != Some(Words(name, override, config))
  {
    CommandSplits(name, override, config, epilogue);
    assert SettingsFor(name, override, config)[2].value == config.pluginPath;
  }

  lemma BoolRoundTrip(b: bool)
    ensures ParseBool(BoolText(b)) == Ok(b)
  {
    assert BoolText(b)[0] == if b then 't' else 'f';
  }

  /** What a job makes of the controller's broker options: none, or valid ones with the build's queue. */
  function JobBroker(override: string, config: Config): Result<Option<Broker>> {
    match config.broker
    case None => Ok(None)
    case Some(b) => BrokerFrom(b.kind, b.uri, Queue(b, override))
  }

  /** The broker kind, in any case. */
  ghost predicate IsAmqp(kind: string) {
    |kind| == 4 && kind[0] in "Aa" && kind[1] in "Mm" && kind[2] in "Qq" && kind[3] in "Pp"
  }

  lemma LowerIsAmqp(kind: string)
    ensures Lower(kind) == AMQP <==> IsAmqp(kind)
  {
    if |kind| == 4 {
      var lower := Lower(kind);
      assert lower == [lower[0], lower[1], lower[2], lower[3]];
      assert AMQP == ['a', 'm', 'q', 'p'];
    }
  }

  /** What was read is what the controller held: the resource name, the caching flag, the plugin path (the job's own
      default where the controller has none) and the broker options with the build's queue, if it names one; or
      it is refused because those options are not valid. */
  ghost predicate AsHeld(read: Result<JobOptions>, name: string, override: string, config: Config,
                         defaultPlugins: string) {
    var plugins := if config.pluginPath == "" then defaultPlugins else config.pluginPath;
    if config.broker.None? || config.broker.value.kind == ""
    then read == Ok(JobOptions(name, config.layerCaching, plugins, None))
    else
      var uri, queue := config.broker.value.uri, if override == "" then config.broker.value.queue else override;
      read == if IsAmqp(config.broker.value.kind) && uri != "" && queue != ""
              then Ok(JobOptions(name, config.layerCaching, plugins, Some(Broker("amqp", uri, queue)))) else Err
  }

  /** A job whose command splits as it should runs with what the controller held. */
  lemma CommandRoundTrip(name: string, override: string, config: Config, epilogue: string, defaultPlugins: string)
    ensures var words := ShellWords(CommandText(name, override, config, epilogue));
            Every(Plain, name, override, config) ==>
              words.Some? && AsHeld(ReadOptions(words.value, defaultPlugins), name, override, config, defaultPlugins)
  {
    CommandSplits(name, override, config, epilogue);
    OptionsReadBack(name, override, config, defaultPlugins);
    if config.broker.Some? { LowerIsAmqp(config.broker.value.kind); }
  }

  lemma RenderedReadBack(settings: seq<Setting>, flag: Flag)
    ensures FlagValue(RenderAll(settings), FlagText(flag)) == SettingOf(settings, flag)
  {
    forall i | 0 <= i < |settings| ensures ReadsAs(RenderAll(settings)[i], settings[i], flag, FlagText(flag)) {
      RenderReadsBack(settings[i], flag);
    }
    FlagsReadBack([], RenderAll(settings), settings, flag, FlagText(flag));
    assert [] + RenderAll(settings) == RenderAll(settings);
  }

  /** What is not given has its default: no layer caching and no broker; without a resource the command is
      refused ... */
  lemma DefaultsApply(name: string, defaultPlugins: string)
    ensures ReadOptions(["--resource=" + name], defaultPlugins) == Ok(JobOptions(name, false, defaultPlugins, None))
    ensures ReadOptions([], defaultPlugins) == Err
  {
    var one := [Setting(Resource, name)];
    SpelledOut(name, "");
    forall flag ensures FlagValue(RenderAll(one), FlagText(flag)) == if flag == Resource then Some(name) else None {
      RenderedReadBack(one, flag);
      assert one[..0] == [];
    }
    BoolRoundTrip(false);
  }

  /** ... and the queue is "forge-status-update". */
  lemma DefaultQueueApplies(name: string, uri: string, defaultPlugins: string)
    requires uri != ""
    ensures ReadOptions(["--resource=" + name, "--message-broker=amqp", "--amqp-uri=" + uri], defaultPlugins) ==
            Ok(JobOptions(name, false, defaultPlugins, Some(Broker("amqp", uri, "forge-status-update"))))
  {
    SpelledOut(name, uri);
    GivenReadBack(name, uri);
    BoolRoundTrip(false);
    AmqpIsRead(uri);
  }

  lemma GivenReadBack(name: string, uri: string)
    ensures var words := RenderAll([Setting(Resource, name), Setting(MessageBroker, "amqp"), Setting(AmqpUri, uri)]);
            && FlagValue(words, FlagText(Resource)) == Some(name) && FlagValue(words, FlagText(LayerCaching)) == None
            && FlagValue(words, FlagText(PluginPath)) == None && FlagValue(words, FlagText(AmqpUri)) == Some(uri)
            && FlagValue(words, FlagText(MessageBroker)) == Some("amqp")
            && FlagValue(words, FlagText(AmqpQueue)) == None
  {
    var three := [Setting(Resource, name), Setting(MessageBroker, "amqp"), Setting(AmqpUri, uri)];
    forall flag
      ensures FlagValue(RenderAll(three), FlagText(flag)) ==
              if flag == Resource then Some(name) else if flag == MessageBroker then Some("amqp")
              else if flag == AmqpUri then Some(uri) else None
    {
      RenderedReadBack(three, flag);
      ThreeReadBack(three[0], three[1], three[2], flag);
    }
  }

  lemma AmqpIsRead(uri: string)
    requires uri != ""
    ensures BrokerFrom("amqp", uri, DEFAULT_QUEUE) == Ok(Some(Broker("amqp", uri, "forge-status-update")))
  {
    LowerIsAmqp("amqp");
  }

  lemma ThreeReadBack(a: Setting, b: Setting, c: Setting, flag: Flag)
    ensures SettingOf([a, b, c], flag) ==
            if c.flag == flag then Some(c.value) else if b.flag == flag then Some(b.value)
            else if a.flag == flag then Some(a.value) else None
  {
    PairReadsBack(a, b, flag);
    assert [a, b, c] == [a, b] + [c] && [c][..0] == [];
    SettingOfConcat([a, b], [c], flag);
  }

  lemma SpelledOut(name: string, uri: string)
    ensures RenderAll([Setting(Resource, name)]) == ["--resource=" + name]
    ensures RenderAll([Setting(Resource, name), Setting(MessageBroker, "amqp"), Setting(AmqpUri, uri)]) ==
            ["--resource=" + name, "--message-broker=amqp", "--amqp-uri=" + uri]
  {
    assert FlagText(Resource) + "=" == "--resource=";
    assert FlagText(MessageBroker) + "=" + "amqp" == "--message-broker=amqp";
    assert FlagText(AmqpUri) + "=" == "--amqp-uri=";
  }

  lemma BrokerReadsBack(name: string, override: string, config: Config)
    ensures var words := Words(name, override, config);
            BrokerFrom(Or(FlagValue(words, FlagText(MessageBroker)), ""), Or(FlagValue(words, FlagText(AmqpUri)), ""),
                       Or(FlagValue(words, FlagText(AmqpQueue)), DEFAULT_QUEUE)) == JobBroker(override, config)
  {
    FlagReadsBack(name, override, config, MessageBroker);
    FlagReadsBack(name, override, config, AmqpUri);
    FlagReadsBack(name, override, config, AmqpQueue);
    BrokerFromFlags(name, override, config);
  }

  lemma BrokerFromFlags(name: string, override: string, config: Config)
    ensures BrokerFrom(Or(Expected(name, override, config, MessageBroker), ""),
                       Or(Expected(name, override, config, AmqpUri), ""),
                       Or(Expected(name, override, config, AmqpQueue), DEFAULT_QUEUE)) == JobBroker(override, config)
  {
  }

  lemma OptionsReadBack(name: string, override: string, config: Config, defaultPlugins: string)
    ensures ReadOptions(Words(name, override, config), defaultPlugins) ==
            if JobBroker(override, config).Err? then Err
            else Ok(JobOptions(name, config.layerCaching,
                               if config.pluginPath == "" then defaultPlugins else config.pluginPath,
                               JobBroker(override, config).value))
  {
    FlagReadsBack(name, override, config, Resource);
    FlagReadsBack(name, override, config, LayerCaching);
    FlagReadsBack(name, override, config, PluginPath);
    BoolRoundTrip(config.layerCaching);
    BrokerReadsBack(name, override, config);
  }

  lemma FlagReadsBack(name: string, override: string, config: Config, flag: Flag)
    ensures FlagValue(Words(name, override, config), FlagText(flag)) == Expected(name, override, config, flag)
  {
    WordsReadBack(name, override, config, flag);
    SettingsReadBack(name, override, config, flag);
  }

  /** What a job is to find under a flag. */
  function Expected(name: string, override: string, config: Config, flag: Flag): Option<string> {
    match flag
    case Resource => Some(name)
    case LayerCaching => Some(BoolText(config.layerCaching))
    case PluginPath => if config.pluginPath == "" then None else Some(config.pluginPath)
    case MessageBroker => if config.broker.None? then None else Some(config.broker.value.kind)
    case AmqpUri => if config.broker.None? then None else Some(config.broker.value.uri)
    case AmqpQueue => if config.broker.None? then None else Some(Queue(config.broker.value, override))
  }

  /** The later settings win. */
  lemma {:induction false} SettingOfConcat(first: seq<Setting>, second: seq<Setting>, flag: Flag)
    ensures SettingOf(first + second, flag) ==
            if SettingOf(second, flag).Some? then SettingOf(second, flag) else SettingOf(first, flag)
  {
    if second == [] {
      assert first + second == first;
    } else {
      var n := |second| - 1;
      assert (first + second)[..|first| + n] == first + second[..n];
      SettingOfConcat(first, second[..n], flag);
    }
  }

  lemma PairReadsBack(a: Setting, b: Setting, flag: Flag)
    ensures SettingOf([a, b], flag) ==
            if b.flag == flag then Some(b.value) else if a.flag == flag then Some(a.value) else None
  {
    assert [a][..0] == [] && [b][..0] == [];
    assert [a] + [b] == [a, b];
    SettingOfConcat([a], [b], flag);
  }

  lemma BrokerSettingsReadBack(override: string, config: Config, flag: Flag)
    ensures SettingOf(BrokerSettings(override, config), flag) ==
            if flag in {MessageBroker, AmqpUri, AmqpQueue} then Expected("", override, config, flag) else None
  {
    if config.broker.Some? {
      var s := BrokerSettings(override, config);
      PairReadsBack(s[0], s[1], flag);
      assert s == [s[0], s[1]] + [s[2]];
      SettingOfConcat([s[0], s[1]], [s[2]], flag);
    }
  }

  lemma SettingsReadBack(name: string, override: string, config: Config, flag: Flag)
    ensures SettingOf(SettingsFor(name, override, config), flag) == Expected(name, override, config, flag)
  {
    var base := [Setting(Resource, name), Setting(LayerCaching, BoolText(config.layerCaching))];
    SettingOfConcat(base + PluginSettings(config), BrokerSettings(override, config), flag);
    SettingOfConcat(base, PluginSettings(config), flag);
    PairReadsBack(base[0], base[1], flag);
    BrokerSettingsReadBack(override, config, flag);
  }
}
