/**
 * The Lingxi assistant's reply service as the React app has it: no model is called; the
 * reply is one of four fixed texts, chosen by keywords in the lower-cased message.
 */
module LingxiApi {
  import opened JsValue

  datatype Message = Message(role: string, content: string)

  /** The reply topics, in the order the keyword groups are tried. */
  datatype Topic = WrfTopic | WindTopic | EconomicsTopic | General

  const DefaultReply := "感谢您的提问。我是灵犀助手，基于Gemini 2.0模型，可以帮助您解答关于沃风平台、WRF模型配置以及风资源评估相关的问题。请问还有什么我可以帮您解答的吗？"

  const WrfReply := "WRF (Weather Research and Forecasting) 模型是一个功能强大的中尺度数值天气预报系统，被广泛用于大气研究和天气预报。在沃风平台中，我们简化了WRF的配置过程，重点关注以下几个核心参数：\n\n1. 时间设置：确定模拟的起止时间和输出频率\n2. 域设置：定义模拟区域的位置、大小和分辨率\n3. 物理参数化方案：选择适合您研究目标的各类物理过程表示方法\n4. 动力学设置：控制模型求解方程的方式\n\n您可以通过平台界面轻松设置这些参数，不需要直接编辑复杂的namelist文件。"

  const WindReply := "风资源评估是风电场选址的关键步骤。沃风平台可以帮助您：\n\n1. 分析模拟得到的风场数据，计算关键指标如平均风速、风功率密度和湍流强度\n2. 生成可视化图表，包括风速分布图、风向玫瑰图和风切变分析\n3. 基于预设标准自动识别风资源丰富的潜在区域\n4. 结合地形、土地利用等因素进行综合评估\n\n这些功能可以帮助您在初期快速筛选出值得进一步实地考察的位置，节省时间和成本。"

  const EconomicsReply := "沃风平台的经济效益分析模块可以帮助您评估风电项目的经济可行性。通过集成ABaCAS工具，平台可以：\n\n1. 基于模拟的风资源数据，估算风电场的发电量\n2. 考虑设备成本、运维费用、电价等因素，计算项目的投资回报\n3. 生成关键经济指标如内部收益率(IRR)、净现值(NPV)和投资回收期\n4. 进行敏感性分析，评估不同参数变化对项目经济性的影响\n\n这些分析可以帮助您在项目决策初期就对经济可行性有清晰的认识。"

  const WrfWords: seq<string> := ["wrf", "模型", "参数"]
  const WindWords: seq<string> := ["风", "资源", "评估"]
  const EconomicsWords: seq<string> := ["经济", "收益", "投资"]

  /** `String.prototype.toLowerCase` on one character, for the ASCII letters. */
  function LowerChar(c: char): char
  {
    if 'A' <= c <= 'Z' then (c as int + 32) as char else c
  }

  /** `s.toLowerCase()`: every ASCII capital lowered, every other character kept. */
  function ToLowerCase(s: string): (r: string)
    ensures |r| == |s|
    ensures forall i :: 0 <= i < |s| ==> r[i] == LowerChar(s[i])
    ensures forall i :: 0 <= i < |s| ==> !('A' <= r[i] <= 'Z')
  {
    if s == [] then [] else [LowerChar(s[0])] + ToLowerCase(s[1..])
  }

  /** The text holds one of the words. */
  predicate Mentions(s: string, words: seq<string>)
  {
    exists i :: 0 <= i < |words| && Includes(s, words[i])
  }

  /** For a group of three words, mentioning the group is mentioning one of its words. */
  lemma MentionsOfThree(s: string, words: seq<string>)
    requires |words| == 3
    ensures Mentions(s, words) <==> Includes(s, words[0]) || Includes(s, words[1]) || Includes(s, words[2])
  {
    if Includes(s, words[0]) || Includes(s, words[1]) || Includes(s, words[2]) {
      var i := if Includes(s, words[0]) then 0 else if Includes(s, words[1]) then 1 else 2;
      assert Includes(s, words[i]);
    }
  }

  /** The keyword routing of sendMessageToLingxi: the first group the lower-cased message mentions. */
  function TopicOf(message: string): (t: Topic)
    ensures t == WrfTopic <==> Mentions(ToLowerCase(message), WrfWords)
    ensures t == WindTopic <==> !Mentions(ToLowerCase(message), WrfWords) && Mentions(ToLowerCase(message), WindWords)
    ensures t == EconomicsTopic <==>
      !Mentions(ToLowerCase(message), WrfWords) && !Mentions(ToLowerCase(message), WindWords)
      && Mentions(ToLowerCase(message), EconomicsWords)
  {
    var lower := ToLowerCase(message);
    MentionsOfThree(lower, WrfWords);
    MentionsOfThree(lower, WindWords);
    MentionsOfThree(lower, EconomicsWords);
    if Includes(lower, "wrf") || Includes(lower, "模型") || Includes(lower, "参数") then WrfTopic
    else if Includes(lower, "风") || Includes(lower, "资源") || Includes(lower, "评估") then WindTopic
    else if Includes(lower, "经济") || Includes(lower, "收益") || Includes(lower, "投资") then EconomicsTopic
    else General
  }

  function ReplyOf(t: Topic): string
  {
    match t
    case WrfTopic => WrfReply
    case WindTopic => WindReply
    case EconomicsTopic => EconomicsReply
    case General => DefaultReply
  }

  /**
   * `sendMessageToLingxi(message, history)` once its one-second delay is over: an assistant
   * message with the reply of the message's topic. The history plays no part.
   */
  function SendMessageToLingxi(message: string, history: seq<Message>): (r: Message)
    ensures r.role == "assistant"
    ensures r.content == ReplyOf(TopicOf(message))
  {
    Message("assistant", ReplyOf(TopicOf(message)))
  }

  /** `getLingxiModelInfo()` */
  datatype ModelInfo = ModelInfo(name: string, model: string, description: string, version: string, capabilities: seq<string>)

  const LingxiModelInfo := ModelInfo("灵犀助手", "Gemini 2.0", "基于Gemini 2.0的专业WRF和风资源评估助手", "1.0.0 Beta",
    ["WRF模型配置指导", "风资源评估解析", "专业术语解释", "经济效益分析辅助"])

  // ----- properties -----

  /** Lowering twice is lowering once. */
  lemma LowerIdempotent(s: string)
    ensures ToLowerCase(ToLowerCase(s)) == ToLowerCase(s)
  {
  }

  /** The routing ignores letter case: a message and its lower-cased form get the same reply. */
  lemma CaseInsensitive(message: string)
    ensures TopicOf(ToLowerCase(message)) == TopicOf(message)
  {
    LowerIdempotent(message);
  }

  /** Lowering works character by character, so it distributes over concatenation. */
  lemma LowerConcat(a: string, b: string)
    ensures ToLowerCase(a + b) == ToLowerCase(a) + ToLowerCase(b)
  {
  }

  /** A text includes every word written inside it. */
  lemma {:induction false} IncludesInfix(x: string, p: string, y: string)
    ensures Includes(x + p + y, p)
    decreases |x|
  {
    if x == [] {
      assert (x + p + y)[..|p|] == p;
    } else {
      assert (x + p + y)[1..] == x[1..] + p + y;
      IncludesInfix(x[1..], p, y);
    }
  }

  /** The text has no ASCII capital letters. */
  predicate NoCapitals(w: string)
  {
    forall j :: 0 <= j < |w| ==> !('A' <= w[j] <= 'Z')
  }

  /** A text without capitals is its own lower case. */
  lemma LowerOfNoCapitals(w: string)
    requires NoCapitals(w)
    ensures ToLowerCase(w) == w
  {
  }

  /** None of the keywords has a capital letter. */
  lemma KeywordsHaveNoCapitals(w: string)
    requires w in WrfWords || w in WindWords || w in EconomicsWords
    ensures NoCapitals(w)
  {
  }

  /** The keywords have no capitals, so a message holding one still holds it once lowered. */
  lemma KeywordSurvivesLowering(a: string, w: string, b: string)
    requires w in WrfWords || w in WindWords || w in EconomicsWords
    ensures Includes(ToLowerCase(a + w + b), w)
  {
    KeywordsHaveNoCapitals(w);
    LowerOfNoCapitals(w);
    LowerConcat(a + w, b);
    LowerConcat(a, w);
    IncludesInfix(ToLowerCase(a), w, ToLowerCase(b));
  }

  /** A message that mentions wrf, 模型 or 参数 anywhere, in any case, gets the WRF reply. */
  lemma WrfWordWins(a: string, w: string, b: string, history: seq<Message>)
    requires w in WrfWords
    ensures SendMessageToLingxi(a + w + b, history).content == WrfReply
  {
    KeywordSurvivesLowering(a, w, b);
  }

  /** "WRF" in capitals is routed to the WRF reply. */
  lemma CapitalWrfMatches()
    ensures TopicOf("WRF") == WrfTopic
  {
    assert ToLowerCase("WRF") == "wrf";
    assert Includes("wrf", "wrf");
  }

  /** A wind or economics word decides the reply only when no word of an earlier group is there. */
  lemma WindWordWins(a: string, w: string, b: string)
    requires w in WindWords && !Mentions(ToLowerCase(a + w + b), WrfWords)
    ensures TopicOf(a + w + b) == WindTopic
  {
    KeywordSurvivesLowering(a, w, b);
  }

  lemma EconomicsWordWins(a: string, w: string, b: string)
    requires w in EconomicsWords
    requires !Mentions(ToLowerCase(a + w + b), WrfWords) && !Mentions(ToLowerCase(a + w + b), WindWords)
    ensures TopicOf(a + w + b) == EconomicsTopic
  {
    KeywordSurvivesLowering(a, w, b);
  }

  /** The four replies differ, so the reply tells which topic was chosen. */
  lemma RepliesDistinct(t: Topic, u: Topic)
    requires t != u
    ensures ReplyOf(t) != ReplyOf(u)
  {
    assert |DefaultReply| == 79 && |WrfReply| == 252 && |WindReply| == 183 && |EconomicsReply| == 204;
  }
}
