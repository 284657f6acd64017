/**
 * shex/main.py: the pure decisions of the command-line front end. Each
 * `input()` is a string argument (a re-prompting loop reads a sequence of
 * them); files are their text before the call.
 */
module Cli {
  import opened Wrappers
  import opened Text

  // ---------------------------------------------------------------------------
  // colorize

  const Colors: map<string, string> := map[
    "red" := "\U{1B}[91m", "green" := "\U{1B}[92m", "yellow" := "\U{1B}[93m",
    "blue" := "\U{1B}[94m", "magenta" := "\U{1B}[95m", "cyan" := "\U{1B}[96m",
    "reset" := "\U{1B}[0m"]

  const Reset := "\U{1B}[0m"

  /** `colors.get(color, '')`. */
  function ColorCode(color: string): string {
    if color in Colors then Colors[color] else ""
  }

  /**
   * `colorize(text, color)`: the color's escape code, the text, then the
   * reset code; an unknown color name adds no code in front.
   */
  function Colorize(text: string, color: string): (r: string)
    ensures var n := |ColorCode(color)|;
            && |r| == n + |text| + |Reset|
            && r[..n] == ColorCode(color)
            && r[n..n + |text|] == text
            && r[n + |text|..] == Reset
    ensures color !in Colors ==> r == text + Reset
  {
    ColorCode(color) + text + Colors["reset"]
  }

  // ---------------------------------------------------------------------------
  // Yes/no answers: confirm_dangerous, confirm_continue and the context question

  datatype Answer = Yes | No | Unclear

  const YesWords: seq<string> := ["y", "yes", "是"]
  const NoWords: seq<string> := ["n", "no", "否"]

  /** `response.strip().lower()`. */
  function Normalized(raw: string): string {
    Lower(Strip(raw))
  }

  /** How one typed reply to a yes/no prompt is read. */
  function ClassifyAnswer(raw: string): (a: Answer)
    ensures a == Yes <==> Normalized(raw) in YesWords
    ensures a == No <==> Normalized(raw) in NoWords
  {
    var n := Normalized(raw);
    if n in YesWords then Yes else if n in NoWords then No else Unclear
  }

  /** Whitespace around a reply does not change how it is read. */
  lemma ClassifyIgnoresPadding(pre: string, raw: string, post: string)
    requires forall k :: 0 <= k < |pre| ==> IsSpace(pre[k])
    requires forall k :: 0 <= k < |post| ==> IsSpace(post[k])
    ensures ClassifyAnswer(pre + raw + post) == ClassifyAnswer(raw)
  {
    StripPadded(pre, raw, post);
  }

  /** The first reply that is a clear yes or no, if any. */
  function FirstAnswer(replies: seq<string>): (r: Option<bool>)
    ensures r.None? <==> forall k :: 0 <= k < |replies| ==> ClassifyAnswer(replies[k]) == Unclear
  {
    if replies == [] then None
    else
      match ClassifyAnswer(replies[0])
      case Yes => Some(true)
      case No => Some(false)
      case Unclear =>
        var r := FirstAnswer(replies[1..]);
        assert forall k :: 1 <= k < |replies| ==> replies[1..][k - 1] == replies[k];
        r
  }

  /**
   * The `while True` loop of `confirm_dangerous` and `confirm_continue`:
   * prompt until a reply is a clear yes or no. `None` means the input ended
   * first (`input()` raises EOFError); `used` is the number of replies read.
   */
  method AskYesNo(replies: seq<string>) returns (answer: Option<bool>, used: nat)
    ensures answer == FirstAnswer(replies)
    ensures used <= |replies|
    ensures forall k :: 0 <= k < used - 1 ==> ClassifyAnswer(replies[k]) == Unclear
    ensures answer.Some? ==> used >= 1 && answer.value == (ClassifyAnswer(replies[used - 1]) == Yes)
                             && ClassifyAnswer(replies[used - 1]) != Unclear
    ensures answer.None? ==> used == |replies|
  {
    used := 0;
    while true
      invariant used <= |replies|
      invariant forall k :: 0 <= k < used ==> ClassifyAnswer(replies[k]) == Unclear
      invariant FirstAnswer(replies) == FirstAnswer(replies[used..])
      decreases |replies| - used
    {
      if used == |replies| {
        return None, used;
      }
      var response := ClassifyAnswer(replies[used]);
      assert replies[used..][1..] == replies[used + 1..];
      used := used + 1;
      if response == Yes {
        return Some(true), used;
      } else if response == No {
        return Some(false), used;
      }
    }
  }

  /** `enable_context = context_choice not in ['n', 'no', '否']`: only a clear "no" disables it. */
  function EnableContext(raw: string): (enable: bool)
    ensures enable <==> ClassifyAnswer(raw) != No
    ensures Strip(raw) == "" ==> enable
  {
    Normalized(raw) !in NoWords
  }

  // ---------------------------------------------------------------------------
  // Numbered menus: setup_language and step 1 of the wizard

  /**
   * A menu reply: accepted when, stripped, it is all digits and names an
   * entry `1..count`; the result is the 0-based index.
   */
  function MenuChoice(raw: string, count: nat): (r: Option<nat>)
    ensures r.Some? ==> r.value < count
    ensures r.Some? <==> IsDigits(Strip(raw)) && 1 <= ParseNat(Strip(raw)) <= count
    ensures r.Some? ==> r.value + 1 == ParseNat(Strip(raw))
  {
    var choice := Strip(raw);
    if IsDigits(choice) && 1 <= ParseNat(choice) <= count then Some(ParseNat(choice) - 1) else None
  }

  /** Typing the number shown in front of entry `i`, with any surrounding whitespace, selects entry `i`. */
  lemma MenuChoiceOfShownNumber(i: nat, count: nat, pre: string, post: string)
    requires i < count
    requires forall k :: 0 <= k < |pre| ==> IsSpace(pre[k])
    requires forall k :: 0 <= k < |post| ==> IsSpace(post[k])
    ensures MenuChoice(pre + NatToString(i + 1) + post, count) == Some(i)
  {
    var s := NatToString(i + 1);
    StripPadded(pre, s, post);
    StripUnchanged(s);
    ParseNatToString(i + 1);
  }

  /** The first accepted menu reply, if any. */
  function FirstMenuChoice(replies: seq<string>, count: nat): (r: Option<nat>)
    ensures r.Some? ==> r.value < count
    ensures r.None? <==> forall k :: 0 <= k < |replies| ==> MenuChoice(replies[k], count).None?
  {
    if replies == [] then None
    else if MenuChoice(replies[0], count).Some? then MenuChoice(replies[0], count)
    else
      var r := FirstMenuChoice(replies[1..], count);
      assert forall k :: 1 <= k < |replies| ==> replies[1..][k - 1] == replies[k];
      r
  }

  /** The `while True` menu loop: prompt until a reply is accepted. `None` means the input ended. */
  method AskMenu(replies: seq<string>, count: nat) returns (choice: Option<nat>, used: nat)
    ensures choice == FirstMenuChoice(replies, count)
    ensures used <= |replies|
    ensures choice.Some? ==> used >= 1 && MenuChoice(replies[used - 1], count) == choice
    ensures forall k :: 0 <= k < used - 1 ==> MenuChoice(replies[k], count).None?
  {
    used := 0;
    while true
      invariant used <= |replies|
      invariant forall k :: 0 <= k < used ==> MenuChoice(replies[k], count).None?
      invariant FirstMenuChoice(replies, count) == FirstMenuChoice(replies[used..], count)
      decreases |replies| - used
    {
      if used == |replies| {
        return None, used;
      }
      var c := MenuChoice(replies[used], count);
      assert replies[used..][1..] == replies[used + 1..];
      used := used + 1;
      if c.Some? {
        return c, used;
      }
    }
  }

  // ---------------------------------------------------------------------------
  // setup_config_wizard

  datatype ModelOption = ModelOption(name: string, display: string, baseUrl: string,
                                     model: string, keyName: string, getKeyUrl: string)

  /** `MODEL_OPTIONS`, in menu order. */
  const ModelOptions: seq<ModelOption> := [
    ModelOption("openai", "OpenAI (GPT-4o)", "https://api.openai.com/v1", "gpt-4o",
                "LLM_API_KEY", "https://platform.openai.com/api-keys"),
    ModelOption("claude", "Anthropic (Claude 3.5)", "https://api.anthropic.com/v1",
                "claude-3-5-sonnet-20241022", "LLM_API_KEY", "https://console.anthropic.com/settings/keys"),
    ModelOption("gemini", "Google (Gemini Pro)", "https://generativelanguage.googleapis.com/v1beta/openai",
                "gemini-2.0-flash", "LLM_API_KEY", "https://aistudio.google.com/apikey"),
    ModelOption("mistral", "Mistral AI", "https://api.mistral.ai/v1", "mistral-large-latest",
                "LLM_API_KEY", "https://console.mistral.ai/api-keys"),
    ModelOption("groq", "Groq (Llama 3)", "https://api.groq.com/openai/v1", "llama-3.3-70b-versatile",
                "LLM_API_KEY", "https://console.groq.com/keys"),
    ModelOption("cohere", "Cohere (Command R+)", "https://api.cohere.ai/v1", "command-r-plus",
                "LLM_API_KEY", "https://dashboard.cohere.com/api-keys"),
    ModelOption("deepseek", "DeepSeek", "https://api.deepseek.com", "deepseek-chat",
                "DEEPSEEK_API_KEY", "https://platform.deepseek.com/api_keys"),
    ModelOption("qwen", "Qwen (通义千问)", "https://dashscope.aliyuncs.com/compatible-mode/v1", "qwen-plus",
                "LLM_API_KEY", "https://dashscope.console.aliyun.com/apiKey"),
    ModelOption("moonshot", "Moonshot (Kimi)", "https://api.moonshot.cn/v1", "moonshot-v1-8k",
                "LLM_API_KEY", "https://platform.moonshot.cn/console/api-keys"),
    ModelOption("zhipu", "Zhipu AI (GLM-4)", "https://open.bigmodel.cn/api/paas/v4", "glm-4",
                "LLM_API_KEY", "https://open.bigmodel.cn/usercenter/apikeys"),
    ModelOption("custom", "Custom (OpenAI Compatible)", "", "", "LLM_API_KEY", "")]

  /** The `.env` lines written for the selected option and key, in order. */
  function EnvLines(opt: ModelOption, apiKey: string): (lines: seq<string>)
    ensures |lines| >= 4
    ensures lines[..3] == ["# Shex Config", "# Model: " + opt.display, ""]
    ensures opt.name == "deepseek" ==> lines[3..] == ["DEEPSEEK_API_KEY=" + apiKey]
    ensures opt.name != "deepseek" ==>
              lines[3..] == ["LLM_API_KEY=" + apiKey, "LLM_BASE_URL=" + opt.baseUrl, "LLM_MODEL=" + opt.model]
  {
    var lines := ["# Shex Config", "# Model: " + opt.display, ""];
    if opt.name == "deepseek" then lines + ["DEEPSEEK_API_KEY=" + apiKey]
    else lines + ["LLM_API_KEY=" + apiKey, "LLM_BASE_URL=" + opt.baseUrl, "LLM_MODEL=" + opt.model]
  }

  /** What the wizard does after a model is chosen. */
  datatype WizardOutcome =
    | InputEnded                                  // the menu input ended before a valid choice
    | Cancelled                                   // returns False before saving anything
    | Saved(enableContext: bool, envText: string) // the config.json flag and the .env text

  /**
   * Steps 2 and 3 of `setup_config_wizard` for the chosen option: the
   * context question, the custom URL and model (read only for "custom"),
   * and the API key. Empty answers cancel; otherwise the config is saved.
   */
  function WizardDecision(opt: ModelOption, contextAnswer: string, customUrl: string,
                          customModel: string, apiKey: string): (o: WizardOutcome)
    ensures !o.InputEnded?
    ensures o.Cancelled? <==>
              Strip(apiKey) == ""
              || (opt.name == "custom" && (Strip(customUrl) == "" || Strip(customModel) == ""))
    ensures o.Saved? ==> o.enableContext == EnableContext(contextAnswer)
  {
    var enable := EnableContext(contextAnswer);
    var selected := if opt.name == "custom"
                    then opt.(baseUrl := Strip(customUrl), model := Strip(customModel))
                    else opt;
    if opt.name == "custom" && (selected.baseUrl == "" || selected.model == "") then Cancelled
    else
      var key := Strip(apiKey);
      if key == "" then Cancelled
      else Saved(enable, Join(EnvLines(selected, key), '\n'))
  }

  /** `setup_config_wizard`: the menu loop, then the decision for the chosen option. */
  method SetupConfigWizard(menuReplies: seq<string>, contextAnswer: string, customUrl: string,
                           customModel: string, apiKey: string) returns (o: WizardOutcome)
    ensures FirstMenuChoice(menuReplies, |ModelOptions|).None? ==> o == InputEnded
    ensures FirstMenuChoice(menuReplies, |ModelOptions|).Some? ==>
              o == WizardDecision(ModelOptions[FirstMenuChoice(menuReplies, |ModelOptions|).value],
                                  contextAnswer, customUrl, customModel, apiKey)
  {
    var choice, _ := AskMenu(menuReplies, |ModelOptions|);
    if choice.None? {
      return InputEnded;
    }
    o := WizardDecision(ModelOptions[choice.value], contextAnswer, customUrl, customModel, apiKey);
  }

  /** `line` starts with `prefix`. */
  predicate HasPrefix(line: string, prefix: string) {
    |prefix| <= |line| && line[..|prefix|] == prefix
  }

  /** The value on the first line that starts with `key=`, if any. */
  function Setting(lines: seq<string>, key: string): Option<string> {
    if lines == [] then None
    else if HasPrefix(lines[0], key + "=") then Some(lines[0][|key| + 1..])
    else Setting(lines[1..], key)
  }

  /** Every option's `key_name` is the variable its key is written under. */
  lemma KeyNamesMatch()
    ensures forall opt :: opt in ModelOptions ==>
              (opt.keyName == "DEEPSEEK_API_KEY" <==> opt.name == "deepseek")
              && (opt.name != "deepseek" ==> opt.keyName == "LLM_API_KEY")
  {
  }

  /** The option's display name, URL and model name each fit on one line. */
  predicate SingleLineFields(opt: ModelOption) {
    '\n' !in opt.display && '\n' !in opt.baseUrl && '\n' !in opt.model
  }

  /** A line that differs from `key=` before the end of either is not that key's line. */
  lemma SettingSkips(lines: seq<string>, key: string, j: nat)
    requires |lines| > 0
    requires j <= |key| && j < |lines[0]| && lines[0][j] != (key + "=")[j]
    ensures Setting(lines, key) == Setting(lines[1..], key)
  {
  }

  /** A `key=value` line is read as that key's value. */
  lemma SettingFound(lines: seq<string>, key: string, value: string)
    requires |lines| > 0 && lines[0] == key + "=" + value
    ensures Setting(lines, key) == Some(value)
  {
    assert lines[0][..|key| + 1] == key + "=";
    assert lines[0][|key| + 1..] == value;
  }

  /** The three header lines never hold a setting: they start with `#` or are empty. */
  lemma HeadersSkipped(opt: ModelOption, apiKey: string, key: string)
    requires key != [] && key[0] != '#'
    ensures Setting(EnvLines(opt, apiKey), key) == Setting(EnvLines(opt, apiKey)[3..], key)
  {
    var lines := EnvLines(opt, apiKey);
    assert lines[0] == "# Shex Config" && lines[1] == "# Model: " + opt.display && lines[2] == "";
    SettingSkips(lines, key, 0);
    SettingSkips(lines[1..], key, 0);
    assert lines[1..][1..] == lines[2..] && lines[2..][1..] == lines[3..];
  }

  /** The saved text splits back into the lines that were joined. */
  lemma EnvTextLines(opt: ModelOption, apiKey: string)
    requires '\n' !in apiKey && SingleLineFields(opt)
    ensures Split(Join(EnvLines(opt, apiKey), '\n'), '\n') == EnvLines(opt, apiKey)
  {
    var lines := EnvLines(opt, apiKey);
    forall k | 0 <= k < |lines|
      ensures '\n' !in lines[k]
    {
      if k < 3 {
        assert lines[k] == lines[..3][k];
      } else {
        assert lines[k] == lines[3..][k - 3];
      }
    }
    SplitJoin(lines, '\n');
  }

  /** Each setting written is found under its variable name. */
  lemma EnvLinesSettings(opt: ModelOption, apiKey: string)
    ensures var lines := EnvLines(opt, apiKey);
            && (opt.name == "deepseek" ==> Setting(lines, "DEEPSEEK_API_KEY") == Some(apiKey))
            && (opt.name != "deepseek" ==>
                  Setting(lines, "LLM_API_KEY") == Some(apiKey)
                  && Setting(lines, "LLM_BASE_URL") == Some(opt.baseUrl)
                  && Setting(lines, "LLM_MODEL") == Some(opt.model))
  {
    var tail := EnvLines(opt, apiKey)[3..];
    if opt.name == "deepseek" {
      HeadersSkipped(opt, apiKey, "DEEPSEEK_API_KEY");
      SettingFound(tail, "DEEPSEEK_API_KEY", apiKey);
    } else {
      HeadersSkipped(opt, apiKey, "LLM_API_KEY");
      HeadersSkipped(opt, apiKey, "LLM_BASE_URL");
      HeadersSkipped(opt, apiKey, "LLM_MODEL");
      SettingFound(tail, "LLM_API_KEY", apiKey);
      SettingSkips(tail, "LLM_BASE_URL", 4);
      SettingFound(tail[1..], "LLM_BASE_URL", opt.baseUrl);
      SettingSkips(tail, "LLM_MODEL", 4);
      SettingSkips(tail[1..], "LLM_MODEL", 4);
      SettingFound(tail[1..][1..], "LLM_MODEL", opt.model);
    }
  }

  /**
   * What the wizard saves for an entry of the menu reads back: the three
   * header lines naming the entry's display name, then the key
   * under the entry's `key_name`, and for every entry but DeepSeek the URL
   * and model (the ones typed in, stripped, for "custom").
   */
  lemma WizardSavesSettings(i: nat, contextAnswer: string, customUrl: string,
                            customModel: string, apiKey: string)
    requires i < |ModelOptions| && SingleLineFields(ModelOptions[i])
    requires '\n' !in apiKey && '\n' !in customUrl && '\n' !in customModel
    ensures var opt := ModelOptions[i];
            var o := WizardDecision(opt, contextAnswer, customUrl, customModel, apiKey);
            o.Saved? ==>
              var lines := Split(o.envText, '\n');
              && |lines| >= 4
              && lines[..3] == ["# Shex Config", "# Model: " + opt.display, ""]
              && Setting(lines, opt.keyName) == Some(Strip(apiKey))
              && (opt.name != "deepseek" && opt.name != "custom" ==>
                    Setting(lines, "LLM_BASE_URL") == Some(opt.baseUrl)
                    && Setting(lines, "LLM_MODEL") == Some(opt.model))
              && (opt.name == "custom" ==>
                    Setting(lines, "LLM_BASE_URL") == Some(Strip(customUrl))
                    && Setting(lines, "LLM_MODEL") == Some(Strip(customModel)))
  {
    var opt := ModelOptions[i];
    assert opt in ModelOptions;
    KeyNamesMatch();
    StripKeepsOut(apiKey, '\n');
    StripKeepsOut(customUrl, '\n');
    StripKeepsOut(customModel, '\n');
    var selected := if opt.name == "custom"
                    then opt.(baseUrl := Strip(customUrl), model := Strip(customModel))
                    else opt;
    EnvTextLines(selected, Strip(apiKey));
    EnvLinesSettings(selected, Strip(apiKey));
  }

  /** `strip()` adds no character: one absent from `s` is absent from `Strip(s)`. */
  lemma StripKeepsOut(s: string, c: char)
    requires c !in s
    ensures c !in Strip(s)
  {
    var r := Strip(s);
    var i := LeadingSpaces(s);
    forall k | 0 <= k < |r|
      ensures r[k] != c
    {
      assert r[k] == s[i + k];
    }
  }

  // ---------------------------------------------------------------------------
  // save_history

  /** Start of the line that holds position `j - 1`: just after the last newline before `j`. */
  function LineStart(s: string, j: nat): (i: nat)
    requires j <= |s|
    ensures i <= j
    ensures i == 0 || s[i - 1] == '\n'
    ensures forall k :: i <= k < j ==> s[k] != '\n'
  {
    if j == 0 || s[j - 1] == '\n' then j else LineStart(s, j - 1)
  }

  /** The last line a Python loop over the file yields (with its newline, if any). */
  function LastLine(content: string): (r: Option<string>)
    ensures r.None? <==> content == []
    ensures r.Some? ==>
              var l := r.value;
              && 0 < |l| <= |content|
              && l == content[|content| - |l|..]
              && (|l| == |content| || content[|content| - |l| - 1] == '\n')
              && forall k :: 0 <= k < |l| - 1 ==> l[k] != '\n'
  {
    if content == [] then None else Some(content[LineStart(content, |content| - 1)..])
  }

  /** A history file only ever holds whole lines. */
  predicate WholeLines(content: string) {
    content == [] || content[|content| - 1] == '\n'
  }

  /** `s` has no whitespace at either end, as a `strip()`ped string. */
  predicate NoOuterSpace(s: string) {
    s == [] || (!IsSpace(s[0]) && !IsSpace(s[|s| - 1]))
  }

  /**
   * What `save_history` appends to a file with text `existing` (`None`: no
   * file yet): nothing when the stripped last line is the query itself,
   * otherwise the query and a newline.
   */
  function HistoryAppend(existing: Option<string>, query: string): (appended: string)
    ensures appended == "" || appended == query + "\n"
    ensures appended == "" <==>
              && existing.Some?
              && LastLine(existing.value).Some?
              && Strip(LastLine(existing.value).value) == query
  {
    if existing.Some? && LastLine(existing.value).Some? && Strip(LastLine(existing.value).value) == query
    then ""
    else query + "\n"
  }

  /** The history file's text after `save_history(query)`. */
  function SaveHistory(existing: Option<string>, query: string): (content: string)
    ensures content == existing.GetOr("") + HistoryAppend(existing, query)
    ensures HasPrefix(content, existing.GetOr(""))
    ensures WholeLines(existing.GetOr("")) ==> WholeLines(content)
  {
    existing.GetOr("") + HistoryAppend(existing, query)
  }

  /**
   * Saving the same (stripped, single-line) query twice in a row records it
   * once: the second call appends nothing.
   */
  lemma SaveHistoryTwice(existing: Option<string>, query: string)
    requires '\n' !in query && NoOuterSpace(query)
    requires WholeLines(existing.GetOr(""))
    ensures HistoryAppend(Some(SaveHistory(existing, query)), query) == ""
    ensures SaveHistory(Some(SaveHistory(existing, query)), query) == SaveHistory(existing, query)
  {
    var after := SaveHistory(existing, query);
    var last := LastLine(after);
    assert last.Some? && Strip(last.value) == query by {
      SavedLastLine(existing, query);
    }
  }

  /** After `save_history(query)` the file's last line is the query. */
  lemma SavedLastLine(existing: Option<string>, query: string)
    requires '\n' !in query && NoOuterSpace(query)
    requires WholeLines(existing.GetOr(""))
    ensures LastLine(SaveHistory(existing, query)).Some?
    ensures Strip(LastLine(SaveHistory(existing, query)).value) == query
  {
    var before := existing.GetOr("");
    var appended := HistoryAppend(existing, query);
    if appended == "" {
      assert SaveHistory(existing, query) == existing.value;
    } else {
      assert SaveHistory(existing, query) == before + (query + "\n");
      LastLineAppended(before, query);
      StripNewline(query);
    }
  }

  /** A stripped line keeps its text once its newline is removed. */
  lemma StripNewline(query: string)
    requires NoOuterSpace(query)
    ensures Strip(query + "\n") == query
  {
    StripUnchanged(query);
    StripPadded("", query, "\n");
    assert "" + query + "\n" == query + "\n";
  }

  /** After a whole-lines text, an appended line `query\n` is the last line. */
  lemma LastLineAppended(before: string, query: string)
    requires '\n' !in query
    requires WholeLines(before)
    ensures LastLine(before + (query + "\n")) == Some(query + "\n")
  {
    var after := before + (query + "\n");
    forall k | |before| <= k < |after| - 1
      ensures after[k] != '\n'
    {
      assert after[k] == query[k - |before|];
    }
    LineStartAfterNewline(after, |before|, |after| - 1);
    assert after[|before|..] == query + "\n";
  }

  /** The line start found from `j` is `b` when `b` begins a line and no newline lies in `[b, j)`. */
  lemma {:induction false} LineStartAfterNewline(s: string, b: nat, j: nat)
    requires b <= j <= |s|
    requires b == 0 || s[b - 1] == '\n'
    requires forall k :: b <= k < j ==> s[k] != '\n'
    ensures LineStart(s, j) == b
    decreases j
  {
    if j > b {
      LineStartAfterNewline(s, b, j - 1);
    }
  }
}
