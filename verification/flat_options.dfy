/**
 * `io.github.llmkit.api.ChatOptions`: an immutable value built by a
 * mutable `Builder`.  Floating-point fields carry their bits only.
 */
module FlatOptions {
  import opened Wrappers
  import opened JavaText
  import opened Json
  import PipelineConfig

  /** The eleven fields of a built `ChatOptions`; `extra` is never null once built. */
  datatype Options = Options(
    model: JString,
    temperature: Option<Decimal>,
    maxTokens: Option<int>,
    topP: Option<Decimal>,
    frequencyPenalty: Option<Decimal>,
    presencePenalty: Option<Decimal>,
    includeUsage: Option<bool>,
    extra: map<string, Json>,
    retryEnabled: Option<bool>,
    retryCount: Option<int>,
    retryDelayMs: Option<int>)
  {
    /** `getModelOrDefault`: the model unless it is null or empty, so a blank model is kept. */
    function ModelOrDefault(default: JString): (r: JString)
      ensures model.Some? && model.value != [] ==> r == model
      ensures model.None? || model.value == [] ==> r == default
    {
      if model.Some? && model.value != [] then model else default
    }

    function TemperatureOrDefault(default: Option<Decimal>): (r: Option<Decimal>)
      ensures temperature.Some? ==> r == temperature
      ensures temperature.None? ==> r == default
    {
      if temperature.Some? then temperature else default
    }

    function IncludeUsageOrDefault(default: Option<bool>): (r: Option<bool>)
      ensures includeUsage.Some? ==> r == includeUsage
      ensures includeUsage.None? ==> r == default
    {
      if includeUsage.Some? then includeUsage else default
    }

    function RetryEnabledOrDefault(default: bool): (r: bool)
      ensures retryEnabled.Some? ==> r == retryEnabled.value
      ensures retryEnabled.None? ==> r == default
    {
      retryEnabled.GetOr(default)
    }

    function RetryCountOrDefault(default: int): (r: int)
      ensures retryCount.Some? ==> r == retryCount.value
      ensures retryCount.None? ==> r == default
    {
      retryCount.GetOr(default)
    }

    function RetryDelayMsOrDefault(default: int): (r: int)
      ensures retryDelayMs.Some? ==> r == retryDelayMs.value
      ensures retryDelayMs.None? ==> r == default
    {
      retryDelayMs.GetOr(default)
    }
  }

  /** Unlike the other generation, a whitespace-only model is a model: only null and "" give the default. */
  lemma BlankModelKept(o: Options, default: JString)
    requires o.model == Some(" ")
    ensures o.ModelOrDefault(default) == Some(" ")
  {
  }

  /** The fields of a `Builder`; its `extra` map may still be null. */
  datatype Draft = Draft(
    model: JString,
    temperature: Option<Decimal>,
    maxTokens: Option<int>,
    topP: Option<Decimal>,
    frequencyPenalty: Option<Decimal>,
    presencePenalty: Option<Decimal>,
    includeUsage: Option<bool>,
    extra: Option<map<string, Json>>,
    retryEnabled: Option<bool>,
    retryCount: Option<int>,
    retryDelayMs: Option<int>)

  /** A new `Builder`: temperature 0.5 and every other field null. */
  const DefaultDraft: Draft := Draft(None, Some(PipelineConfig.DefaultTemperature), None, None, None, None, None, None, None, None, None)

  /** The private constructor: every field copied, a null `extra` becoming the empty map. */
  function BuildOptions(d: Draft): (o: Options)
    ensures d.extra.None? ==> o.extra == map[]
    ensures d.extra.Some? ==> o.extra == d.extra.value
  {
    Options(d.model, d.temperature, d.maxTokens, d.topP, d.frequencyPenalty, d.presencePenalty,
            d.includeUsage, d.extra.GetOr(map[]), d.retryEnabled, d.retryCount, d.retryDelayMs)
  }

  /** `toBuilder()`: every field copied, an empty `extra` passed on as null. */
  function ToDraft(o: Options): Draft {
    Draft(o.model, o.temperature, o.maxTokens, o.topP, o.frequencyPenalty, o.presencePenalty,
          o.includeUsage, if o.extra == map[] then None else Some(o.extra),
          o.retryEnabled, o.retryCount, o.retryDelayMs)
  }

  /** `ChatOptions.DEFAULT`, which is `builder().build()`. */
  const Default: Options := BuildOptions(DefaultDraft)

  /** Built defaults: temperature 0.5, every other scalar null, `extra` empty. */
  lemma DefaultValues()
    ensures Default == Options(None, Some(PipelineConfig.DefaultTemperature), None, None, None, None, None, map[], None, None, None)
  {
  }

  /** `toBuilder().build()` equals the original. */
  lemma ToBuilderRoundTrip(o: Options)
    ensures BuildOptions(ToDraft(o)) == o
  {
  }

  /** `withModel(m)`: `toBuilder().model(m).build()`. */
  function WithModel(o: Options, m: JString): Options {
    BuildOptions(ToDraft(o).(model := m))
  }

  function WithTemperature(o: Options, t: Option<Decimal>): Options {
    BuildOptions(ToDraft(o).(temperature := t))
  }

  function WithMaxTokens(o: Options, n: Option<int>): Options {
    BuildOptions(ToDraft(o).(maxTokens := n))
  }

  /** Each `with*` copy differs from the original in its one field only. */
  lemma WithChangesOneField(o: Options, m: JString, t: Option<Decimal>, n: Option<int>)
    ensures WithModel(o, m) == o.(model := m)
    ensures WithTemperature(o, t) == o.(temperature := t)
    ensures WithMaxTokens(o, n) == o.(maxTokens := n)
  {
  }

  /** `equals`: all eleven fields compared. */
  predicate OptionsEquals(a: Options, b: Options) {
    && a.model == b.model && a.temperature == b.temperature && a.maxTokens == b.maxTokens
    && a.topP == b.topP && a.frequencyPenalty == b.frequencyPenalty && a.presencePenalty == b.presencePenalty
    && a.includeUsage == b.includeUsage && a.extra == b.extra
    && a.retryEnabled == b.retryEnabled && a.retryCount == b.retryCount && a.retryDelayMs == b.retryDelayMs
  }

  /** Java equality of options is value equality of the eleven fields. */
  lemma OptionsEqualsIsValueEquality(a: Options, b: Options)
    ensures OptionsEquals(a, b) <==> a == b
  {
  }

  /** `ChatOptions.Builder`. */
  class OptionsBuilder {
    var model: JString
    var temperature: Option<Decimal>
    var maxTokens: Option<int>
    var topP: Option<Decimal>
    var frequencyPenalty: Option<Decimal>
    var presencePenalty: Option<Decimal>
    var includeUsage: Option<bool>
    var extra: Option<map<string, Json>>
    var retryEnabled: Option<bool>
    var retryCount: Option<int>
    var retryDelayMs: Option<int>

    function Value(): Draft
      reads this
    {
      Draft(model, temperature, maxTokens, topP, frequencyPenalty, presencePenalty,
            includeUsage, extra, retryEnabled, retryCount, retryDelayMs)
    }

    constructor ()
      ensures Value() == DefaultDraft
    {
      model, temperature, maxTokens := None, Some(PipelineConfig.DefaultTemperature), None;
      topP, frequencyPenalty, presencePenalty := None, None, None;
      includeUsage, extra := None, None;
      retryEnabled, retryCount, retryDelayMs := None, None, None;
    }

    method Model(m: JString) returns (b: OptionsBuilder)
      modifies this
      ensures b == this && Value() == old(Value()).(model := m)
    {
      model := m;
      b := this;
    }

    method Temperature(t: Option<Decimal>) returns (b: OptionsBuilder)
      modifies this
      ensures b == this && Value() == old(Value()).(temperature := t)
    {
      temperature := t;
      b := this;
    }

    method MaxTokens(n: Option<int>) returns (b: OptionsBuilder)
      modifies this
      ensures b == this && Value() == old(Value()).(maxTokens := n)
    {
      maxTokens := n;
      b := this;
    }

    method TopP(x: Option<Decimal>) returns (b: OptionsBuilder)
      modifies this
      ensures b == this && Value() == old(Value()).(topP := x)
    {
      topP := x;
      b := this;
    }

    method FrequencyPenalty(x: Option<Decimal>) returns (b: OptionsBuilder)
      modifies this
      ensures b == this && Value() == old(Value()).(frequencyPenalty := x)
    {
      frequencyPenalty := x;
      b := this;
    }

    method PresencePenalty(x: Option<Decimal>) returns (b: OptionsBuilder)
      modifies this
      ensures b == this && Value() == old(Value()).(presencePenalty := x)
    {
      presencePenalty := x;
      b := this;
    }

    method IncludeUsage(u: Option<bool>) returns (b: OptionsBuilder)
      modifies this
      ensures b == this && Value() == old(Value()).(includeUsage := u)
    {
      includeUsage := u;
      b := this;
    }

    method Extra(e: Option<map<string, Json>>) returns (b: OptionsBuilder)
      modifies this
      ensures b == this && Value() == old(Value()).(extra := e)
    {
      extra := e;
      b := this;
    }

    /** `addExtra(k, v)`: creates the map on first use, then inserts or overwrites k. */
    method AddExtra(k: string, v: Json) returns (b: OptionsBuilder)
      modifies this
      ensures b == this && Value() == old(Value()).(extra := Some(old(extra).GetOr(map[])[k := v]))
    {
      if extra.None? {
        extra := Some(map[]);
      }
      extra := Some(extra.value[k := v]);
      b := this;
    }

    method RetryEnabled(x: Option<bool>) returns (b: OptionsBuilder)
      modifies this
      ensures b == this && Value() == old(Value()).(retryEnabled := x)
    {
      retryEnabled := x;
      b := this;
    }

    method RetryCount(x: Option<int>) returns (b: OptionsBuilder)
      modifies this
      ensures b == this && Value() == old(Value()).(retryCount := x)
    {
      retryCount := x;
      b := this;
    }

    method RetryDelayMs(x: Option<int>) returns (b: OptionsBuilder)
      modifies this
      ensures b == this && Value() == old(Value()).(retryDelayMs := x)
    {
      retryDelayMs := x;
      b := this;
    }

    /** `build()`. */
    function Build(): Options
      reads this
    {
      BuildOptions(Value())
    }
  }

  /** `toBuilder()` as a new builder object. */
  method ToBuilder(o: Options) returns (b: OptionsBuilder)
    ensures fresh(b) && b.Value() == ToDraft(o)
  {
    b := new OptionsBuilder();
    b := b.Model(o.model);
    b := b.Temperature(o.temperature);
    b := b.MaxTokens(o.maxTokens);
    b := b.TopP(o.topP);
    b := b.FrequencyPenalty(o.frequencyPenalty);
    b := b.PresencePenalty(o.presencePenalty);
    b := b.IncludeUsage(o.includeUsage);
    b := b.Extra(if o.extra == map[] then None else Some(o.extra));
    b := b.RetryEnabled(o.retryEnabled);
    b := b.RetryCount(o.retryCount);
    b := b.RetryDelayMs(o.retryDelayMs);
  }

  /** The map is copied when the options are built: an entry added to the builder afterwards does not reach them. */
  method ExtraCopiedAtBuild() returns (built: Options, later: Options)
    ensures built.extra == map["a" := JInt(1)]
    ensures later.extra == map["a" := JInt(1), "b" := JInt(2)]
  {
    var b := new OptionsBuilder();
    b := b.AddExtra("a", JInt(1));
    built := b.Build();
    b := b.AddExtra("b", JInt(2));
    later := b.Build();
  }
}
