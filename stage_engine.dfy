/**
 * The seven-stage wizard: the session state the application keeps between
 * reruns, the navigation between stages, the restart button, and what each
 * stage does with the state when it is shown or when one of its controls is
 * used. A stage fetches its generated content only while the field that holds
 * it is empty.
 */
module StageEngine {
  import opened Wrappers
  import opened Records
  import opened Gateway
  import opened ResponseParser
  import opened NewsSearch
  import opened Generation

  /** The choices of the three drop-down lists of the parameters stage. */
  const ToneOptions: seq<string> := [
    "Professionnel", "Dynamique", "Bienveillant", "Humoristique",
    "Formel", "Informatif", "Conversationnel", "Persuasif"
  ]
  const LengthOptions: seq<string> := [ShortLength, MediumLength, LongLength]
  const StyleOptions: seq<string> := [
    "Blog", "Article LinkedIn", "Post inspirant", "Tutoriel", "Analyse de marché", "Étude de cas"
  ]

  /** The inspiration stage asks the search for this many articles. */
  const SearchResults: nat := 5

  /** The values of the session's keys. An empty outline dictionary is `None`. */
  datatype Session = Session(
    stage: int,
    sector: string, keywords: string, services: string,
    topicIdeas: seq<string>, selectedTopic: string,
    recentArticles: seq<Article>,
    editorialAngles: seq<string>, selectedAngle: string,
    selectedTone: string, selectedLength: string, selectedStyle: string,
    articleOutline: Option<Outline>,
    finalArticle: string)

  /** The defaults each key takes when it is not in the session. */
  const Initial: Session := Session(1, "", "", "", [], "", [], [], "", "", "", "", None, "")

  /** A parameter is unset, or one of the choices of its list. */
  predicate Chosen(value: string, options: seq<string>) {
    value == "" || value in options
  }

  /**
   * What every reachable session satisfies: a stage of at least 1, the
   * parameters taken from their lists (so the drop-down lists can find them),
   * and the idea and angle lists either not generated yet or five long.
   */
  predicate Valid(s: Session) {
    s.stage >= 1 &&
    Chosen(s.selectedTone, ToneOptions) && Chosen(s.selectedLength, LengthOptions) &&
    Chosen(s.selectedStyle, StyleOptions) &&
    (s.topicIdeas == [] || |s.topicIdeas| == ListSize) &&
    (s.editorialAngles == [] || |s.editorialAngles| == ListSize)
  }

  // ---------------------------------------------------------------- requests

  /** The request of `generate_topic_ideas`. */
  function IdeasCall(sector: string, keywords: string, services: string): (c: Call)
    ensures c.prompt == TopicIdeasPrompt(sector, keywords, services)
    ensures c.model == DefaultModel && c.maxTokens == 1000
  {
    Call(TopicIdeasPrompt(sector, keywords, services), DefaultModel, 1000)
  }

  /** The request of `generate_editorial_angles`. */
  function AnglesCall(topic: string, sector: string): (c: Call)
    ensures c.prompt == AnglesPrompt(topic, sector)
    ensures c.model == DefaultModel && c.maxTokens == 1000
  {
    Call(AnglesPrompt(topic, sector), DefaultModel, 1000)
  }

  /** The request of `generate_article_outline`. */
  function OutlineCall(topic: string, angle: string, tone: string, length: string, style: string): (c: Call)
    ensures c.prompt == OutlinePrompt(topic, angle, tone, length, style)
    ensures c.model == DefaultModel && c.maxTokens == 1200
  {
    Call(OutlinePrompt(topic, angle, tone, length, style), DefaultModel, 1200)
  }

  // ---------------------------------------------------------------- transitions

  function Next(s: Session): Session {
    s.(stage := s.stage + 1)
  }

  function Prev(s: Session): Session {
    if s.stage > 1 then s.(stage := s.stage - 1) else s
  }

  /** The first stage's form is submitted: accepted when the sector and the keywords are filled in. */
  function SubmitInitial(s: Session, sector: string, keywords: string, services: string, llm: Completion): Session {
    var typed := s.(sector := sector, keywords := keywords, services := services);
    if sector == "" || keywords == "" then typed
    else Next(typed.(topicIdeas := IdeasList(llm(IdeasCall(sector, keywords, services)), sector, keywords)))
  }

  /** One of the generated ideas is chosen. */
  function ChooseTopic(s: Session, k: nat): Session
    requires k < |s.topicIdeas|
  {
    Next(s.(selectedTopic := s.topicIdeas[k]))
  }

  /** A topic of the user's own is submitted; an empty one is ignored. */
  function CustomTopic(s: Session, topic: string): Session {
    if topic == "" then s else Next(s.(selectedTopic := topic))
  }

  /** The inspiration stage is shown: the search runs only while no article is stored. */
  function ShowInspiration(s: Session, from: string, news: NewsIndex, llm: Completion, parse: ArticlesReader): Session {
    if s.recentArticles != [] then s
    else s.(recentArticles := SearchRecent(s.selectedTopic, s.sector, s.keywords, SearchResults, from, news, llm, parse))
  }

  /** The angles stage is shown: the angles are generated only while there are none. */
  function ShowAngles(s: Session, llm: Completion): Session {
    if s.editorialAngles != [] then s
    else s.(editorialAngles := AnglesList(llm(AnglesCall(s.selectedTopic, s.sector))))
  }

  function ChooseAngle(s: Session, k: nat): Session
    requires k < |s.editorialAngles|
  {
    Next(s.(selectedAngle := s.editorialAngles[k]))
  }

  function CustomAngle(s: Session, angle: string): Session {
    if angle == "" then s else Next(s.(selectedAngle := angle))
  }

  /**
   * The parameters stage is shown: each drop-down list writes its current
   * choice into the session, its default (the first tone, the medium length,
   * the first style) when nothing was chosen yet.
   */
  function ShowParameters(s: Session): Session {
    s.(selectedTone := if s.selectedTone == "" then ToneOptions[0] else s.selectedTone,
       selectedLength := if s.selectedLength == "" then LengthOptions[1] else s.selectedLength,
       selectedStyle := if s.selectedStyle == "" then StyleOptions[0] else s.selectedStyle)
  }

  function SubmitParameters(s: Session, tone: string, length: string, style: string): Session {
    Next(s.(selectedTone := tone, selectedLength := length, selectedStyle := style))
  }

  /** The plan stage is shown: the plan is generated only while there is none. */
  function ShowOutline(s: Session, llm: Completion, parse: string -> Option<Outline>): Session {
    if s.articleOutline.Some? then s
    else s.(articleOutline := Some(OutlineFromReply(
      llm(OutlineCall(s.selectedTopic, s.selectedAngle, s.selectedTone, s.selectedLength, s.selectedStyle)),
      s.selectedTopic, parse)))
  }

  /** The article stage's prerequisites: a topic, an angle and the three parameters. */
  predicate Ready(s: Session) {
    s.selectedTopic != "" && s.selectedAngle != "" &&
    s.selectedTone != "" && s.selectedLength != "" && s.selectedStyle != ""
  }

  /** The article request for the session's choices and its first inspiration articles. */
  function SessionArticleCall(s: Session, o: Outline, extract: Extractor, llm: Completion): Call {
    ArticleCall(o, s.selectedTopic, s.selectedAngle, s.selectedTone, s.selectedLength, s.selectedStyle,
                Processed(Strings.Prefix(s.recentArticles, DefaultMaxArticles), extract, llm))
  }

  /**
   * The article stage is shown: with the prerequisites met, the article is
   * generated only while there is none. Without a plan the generation fails
   * on the missing title and nothing is stored.
   */
  function ShowArticle(s: Session, extract: Extractor, llm: Completion): Session {
    if !Ready(s) || s.finalArticle != "" || s.articleOutline.None? then s
    else s.(finalArticle := llm(SessionArticleCall(s, s.articleOutline.value, extract, llm)))
  }

  // ---------------------------------------------------------------- properties

  /** Going back never leaves the first stage, and moves exactly one stage from any later one. */
  lemma PrevStaysFromOne(s: Session)
    requires s.stage >= 1
    ensures Prev(s).stage >= 1
    ensures Prev(s).stage == s.stage - 1 <==> s.stage > 1
    ensures Prev(s).(stage := s.stage) == s
  {
  }

  /**
   * The first form moves on exactly when the sector and the keywords are
   * filled in, and then offers five ideas.
   */
  lemma SubmitInitialAccepts(s: Session, sector: string, keywords: string, services: string, llm: Completion)
    ensures var t := SubmitInitial(s, sector, keywords, services, llm);
      (t.stage == s.stage + 1 <==> sector != "" && keywords != "") &&
      (t.stage == s.stage + 1 ==> |t.topicIdeas| == ListSize) &&
      (t.stage == s.stage ==> t.topicIdeas == s.topicIdeas) &&
      t.sector == sector && t.keywords == keywords && t.services == services
  {
  }

  /** Once generated, the angles stay: showing the stage again asks for nothing. */
  lemma AnglesGeneratedOnce(s: Session, llm: Completion, later: Completion)
    ensures ShowAngles(ShowAngles(s, llm), later) == ShowAngles(s, llm)
    ensures |ShowAngles(s, llm).editorialAngles| == ListSize || ShowAngles(s, llm) == s
  {
    if s.editorialAngles == [] {
      var angles := AnglesList(llm(AnglesCall(s.selectedTopic, s.sector)));
      assert |angles| == ListSize;
    }
  }

  /** Once generated, the plan stays until it is cleared by the regenerate button. */
  lemma OutlineGeneratedOnce(s: Session, llm: Completion, later: Completion,
                             parse: string -> Option<Outline>, laterParse: string -> Option<Outline>)
    ensures ShowOutline(ShowOutline(s, llm, parse), later, laterParse) == ShowOutline(s, llm, parse)
    ensures ShowOutline(s, llm, parse).articleOutline.Some?
    ensures ShowOutline(s.(articleOutline := None), llm, parse).articleOutline
      == Some(OutlineFromReply(llm(OutlineCall(s.selectedTopic, s.selectedAngle, s.selectedTone,
                                                s.selectedLength, s.selectedStyle)), s.selectedTopic, parse))
  {
  }

  /** Stored articles are never searched again; choosing another topic does not clear them. */
  lemma InspirationKeptAcrossTopics(s: Session, topic: string, from: string, news: NewsIndex,
                                    llm: Completion, parse: ArticlesReader)
    requires s.recentArticles != [] && topic != ""
    ensures ShowInspiration(CustomTopic(s, topic), from, news, llm, parse).recentArticles == s.recentArticles
    ensures ShowInspiration(CustomTopic(s, topic), from, news, llm, parse).selectedTopic == topic
  {
  }

  /**
   * The article is written only when every prerequisite is set, no article
   * is stored and there is a plan; it is then written from the stored plan.
   */
  lemma ArticleOnlyWhenReady(s: Session, extract: Extractor, llm: Completion)
    ensures ShowArticle(s, extract, llm) != s ==>
      Ready(s) && s.finalArticle == "" && s.articleOutline.Some? &&
      ShowArticle(s, extract, llm) == s.(finalArticle := llm(SessionArticleCall(s, s.articleOutline.value, extract, llm)))
    ensures !Ready(s) ==> ShowArticle(s, extract, llm) == s
  {
  }

  /** The parameters stage fills every parameter in, from its list. */
  lemma ShowParametersFillsIn(s: Session)
    requires Valid(s)
    ensures var t := ShowParameters(s);
      Valid(t) && t.selectedTone != "" && t.selectedLength != "" && t.selectedStyle != "" &&
      (s.selectedTone != "" ==> t.selectedTone == s.selectedTone) &&
      (s.selectedLength != "" ==> t.selectedLength == s.selectedLength) &&
      (s.selectedStyle != "" ==> t.selectedStyle == s.selectedStyle) &&
      t.(selectedTone := s.selectedTone, selectedLength := s.selectedLength, selectedStyle := s.selectedStyle) == s
  {
  }

  /** Moving between stages keeps a valid session valid, and the defaults are valid. */
  lemma NavigationKeepsValid(s: Session)
    requires Valid(s)
    ensures Valid(Next(s)) && Valid(Prev(s)) && Valid(Initial)
  {
  }

  /** The first two stages keep a valid session valid: the ideas come five at a time. */
  lemma TopicStagesKeepValid(s: Session, sector: string, keywords: string, services: string,
                             llm: Completion, k: nat, topic: string)
    requires Valid(s)
    ensures Valid(SubmitInitial(s, sector, keywords, services, llm))
    ensures k < |s.topicIdeas| ==> Valid(ChooseTopic(s, k))
    ensures Valid(CustomTopic(s, topic))
  {
    if sector != "" && keywords != "" {
      assert |IdeasList(llm(IdeasCall(sector, keywords, services)), sector, keywords)| == ListSize;
    }
  }

  /** The inspiration and angle stages keep a valid session valid: the angles come five at a time. */
  lemma AngleStagesKeepValid(s: Session, from: string, news: NewsIndex, llm: Completion,
                             parse: ArticlesReader, k: nat, angle: string)
    requires Valid(s)
    ensures Valid(ShowInspiration(s, from, news, llm, parse))
    ensures Valid(ShowAngles(s, llm))
    ensures k < |s.editorialAngles| ==> Valid(ChooseAngle(s, k))
    ensures Valid(CustomAngle(s, angle))
  {
    if s.editorialAngles == [] {
      assert |AnglesList(llm(AnglesCall(s.selectedTopic, s.sector)))| == ListSize;
    }
  }

  /** Showing the parameters, the plan and the article keeps a valid session valid. */
  lemma LaterStagesKeepValid(s: Session, llm: Completion, parse: string -> Option<Outline>, extract: Extractor)
    requires Valid(s)
    ensures Valid(ShowParameters(s))
    ensures Valid(ShowOutline(s, llm, parse))
    ensures Valid(ShowArticle(s, extract, llm))
  {
    assert ToneOptions[0] in ToneOptions && LengthOptions[1] in LengthOptions && StyleOptions[0] in StyleOptions;
  }

  /** Submitted parameters taken from the lists keep the session valid. */
  lemma SubmitParametersKeepsValid(s: Session, tone: string, length: string, style: string)
    requires Valid(s)
    requires tone in ToneOptions && length in LengthOptions && style in StyleOptions
    ensures Valid(SubmitParameters(s, tone, length, style)) && Ready(SubmitParameters(s, tone, length, style)) == (s.selectedTopic != "" && s.selectedAngle != "")
  {
    assert tone != "" && length != "" && style != "" by {
      assert forall i :: 0 <= i < |ToneOptions| ==> ToneOptions[i] != "";
      assert forall i :: 0 <= i < |LengthOptions| ==> LengthOptions[i] != "";
      assert forall i :: 0 <= i < |StyleOptions| ==> StyleOptions[i] != "";
    }
  }

  // ---------------------------------------------------------------- the session

  /** The session state, one field per key; the stage handlers update it in place. */
  class Wizard {
    var stage: int
    var sector: string
    var keywords: string
    var services: string
    var topicIdeas: seq<string>
    var selectedTopic: string
    var recentArticles: seq<Article>
    var editorialAngles: seq<string>
    var selectedAngle: string
    var selectedTone: string
    var selectedLength: string
    var selectedStyle: string
    var articleOutline: Option<Outline>
    var finalArticle: string

    /** The values of all the keys. */
    function Data(): Session
      reads this
    {
      Session(stage, sector, keywords, services, topicIdeas, selectedTopic, recentArticles,
              editorialAngles, selectedAngle, selectedTone, selectedLength, selectedStyle,
              articleOutline, finalArticle)
    }

    /** A fresh session: every key at its default. */
    constructor()
      ensures Data() == Initial && Valid(Data())
    {
      stage := 1;
      sector, keywords, services := "", "", "";
      topicIdeas, selectedTopic := [], "";
      recentArticles := [];
      editorialAngles, selectedAngle := [], "";
      selectedTone, selectedLength, selectedStyle := "", "", "";
      articleOutline := None;
      finalArticle := "";
    }

    /** `go_to_stage(k)`. */
    method GoToStage(k: int)
      modifies this
      ensures Data() == old(Data()).(stage := k)
    {
      stage := k;
    }

    /** `next_stage()`: one stage on, with no upper bound. */
    method NextStage()
      requires Valid(Data())
      modifies this
      ensures Valid(Data())
      ensures Data() == Next(old(Data()))
    {
      stage := stage + 1;
    }

    /** `prev_stage()`: one stage back, except from the first. */
    method PrevStage()
      requires Valid(Data())
      modifies this
      ensures Valid(Data())
      ensures Data() == Prev(old(Data()))
    {
      if stage > 1 {
        stage := stage - 1;
      }
    }

    /**
     * The restart button: every key but the stage is deleted, the stage is
     * set to 1, and the next run puts the defaults back.
     */
    method Reset()
      modifies this
      ensures Data() == Initial && Valid(Data())
    {
      ClearInputs();
      ClearTopic();
      ClearAngle();
      ClearParameters();
      ClearArticle();
    }

    /** Deletes the keys of the first stage's form. */
    method ClearInputs()
      modifies this
      ensures Data() == old(Data()).(sector := "", keywords := "", services := "")
    {
      sector, keywords, services := "", "", "";
    }

    /** Deletes the ideas, the chosen topic and the inspiration articles. */
    method ClearTopic()
      modifies this
      ensures Data() == old(Data()).(topicIdeas := [], selectedTopic := "", recentArticles := [])
    {
      topicIdeas, selectedTopic, recentArticles := [], "", [];
    }

    /** Deletes the angles and the chosen angle. */
    method ClearAngle()
      modifies this
      ensures Data() == old(Data()).(editorialAngles := [], selectedAngle := "")
    {
      editorialAngles, selectedAngle := [], "";
    }

    /** Deletes the three parameters. */
    method ClearParameters()
      modifies this
      ensures Data() == old(Data()).(selectedTone := "", selectedLength := "", selectedStyle := "")
    {
      selectedTone, selectedLength, selectedStyle := "", "", "";
    }

    /** Deletes the plan and the article and goes back to the first stage. */
    method ClearArticle()
      modifies this
      ensures Data() == old(Data()).(stage := 1, articleOutline := None, finalArticle := "")
    {
      articleOutline, finalArticle, stage := None, "", 1;
    }

    /** The first stage's fields write what was typed into the session. */
    method StoreInputs(typedSector: string, typedKeywords: string, typedServices: string)
      modifies this
      ensures Data() == old(Data()).(sector := typedSector, keywords := typedKeywords, services := typedServices)
    {
      sector, keywords, services := typedSector, typedKeywords, typedServices;
    }

    /** Stage 1, the form submitted with the three fields as typed. */
    method SubmitInitialData(typedSector: string, typedKeywords: string, typedServices: string, llm: Completion)
      returns (accepted: bool)
      requires stage == 1
      requires Valid(Data())
      modifies this
      ensures Valid(Data())
      ensures accepted <==> typedSector != "" && typedKeywords != ""
      ensures Data() == SubmitInitial(old(Data()), typedSector, typedKeywords, typedServices, llm)
    {
      StoreInputs(typedSector, typedKeywords, typedServices);
      if sector == "" || keywords == "" {
        return false;
      }
      topicIdeas := TopicIdeas(llm(IdeasCall(sector, keywords, services)), sector, keywords);
      NextStage();
      accepted := true;
    }

    /** Stage 2, the button of the `k`-th idea. */
    method ChooseTopicAt(k: nat)
      requires stage == 2 && k < |topicIdeas|
      requires Valid(Data())
      modifies this
      ensures Valid(Data())
      ensures Data() == ChooseTopic(old(Data()), k)
    {
      selectedTopic := topicIdeas[k];
      NextStage();
    }

    /** Stage 2, the custom-topic form. */
    method UseCustomTopic(topic: string)
      requires stage == 2
      requires Valid(Data())
      modifies this
      ensures Valid(Data())
      ensures Data() == CustomTopic(old(Data()), topic)
    {
      if topic != "" {
        selectedTopic := topic;
        NextStage();
      }
    }

    /** Stage 3 shown: the search, if no article is stored yet. */
    method ShowInspirationStage(from: string, news: NewsIndex, llm: Completion, parse: ArticlesReader)
      requires stage == 3
      requires Valid(Data())
      modifies this
      ensures Valid(Data())
      ensures Data() == ShowInspiration(old(Data()), from, news, llm, parse)
    {
      if recentArticles == [] {
        recentArticles := SearchRecentArticles(selectedTopic, sector, keywords, SearchResults, from, news, llm, parse);
      }
    }

    /** Stage 4 shown: the angles, if there are none yet. */
    method ShowAnglesStage(llm: Completion)
      requires stage == 4
      requires Valid(Data())
      modifies this
      ensures Valid(Data())
      ensures Data() == ShowAngles(old(Data()), llm)
    {
      if editorialAngles == [] {
        editorialAngles := EditorialAngles(llm(AnglesCall(selectedTopic, sector)));
      }
    }

    /** Stage 4, the button of the `k`-th angle. */
    method ChooseAngleAt(k: nat)
      requires stage == 4 && k < |editorialAngles|
      requires Valid(Data())
      modifies this
      ensures Valid(Data())
      ensures Data() == ChooseAngle(old(Data()), k)
    {
      selectedAngle := editorialAngles[k];
      NextStage();
    }

    /** Stage 4, the custom-angle form. */
    method UseCustomAngle(angle: string)
      requires stage == 4
      requires Valid(Data())
      modifies this
      ensures Valid(Data())
      ensures Data() == CustomAngle(old(Data()), angle)
    {
      if angle != "" {
        selectedAngle := angle;
        NextStage();
      }
    }

    /** Stage 5 shown: the drop-down lists write their current choice. */
    method ShowParametersStage()
      requires stage == 5
      requires Valid(Data())
      modifies this
      ensures Valid(Data())
      ensures Data() == ShowParameters(old(Data()))
    {
      if selectedTone == "" {
        selectedTone := ToneOptions[0];
      }
      if selectedLength == "" {
        selectedLength := LengthOptions[1];
      }
      if selectedStyle == "" {
        selectedStyle := StyleOptions[0];
      }
    }

    /** Stage 5, the form submitted with a choice from each list. */
    method SubmitParametersForm(tone: string, length: string, style: string)
      requires stage == 5
      requires tone in ToneOptions && length in LengthOptions && style in StyleOptions
      requires Valid(Data())
      modifies this
      ensures Valid(Data())
      ensures Data() == SubmitParameters(old(Data()), tone, length, style)
    {
      selectedTone, selectedLength, selectedStyle := tone, length, style;
      NextStage();
    }

    /** Stage 6 shown: the plan, if there is none yet. */
    method ShowOutlineStage(llm: Completion, parse: string -> Option<Outline>)
      requires stage == 6
      requires Valid(Data())
      modifies this
      ensures Valid(Data())
      ensures Data() == ShowOutline(old(Data()), llm, parse)
    {
      if articleOutline.None? {
        var reply := llm(OutlineCall(selectedTopic, selectedAngle, selectedTone, selectedLength, selectedStyle));
        articleOutline := Some(OutlineFromReply(reply, selectedTopic, parse));
      }
    }

    /** Stage 6, the regenerate button: the plan is cleared and produced again when the stage is shown. */
    method RegenerateOutline()
      requires stage == 6
      requires Valid(Data())
      modifies this
      ensures Valid(Data())
      ensures Data() == old(Data()).(articleOutline := None)
    {
      articleOutline := None;
    }

    /** Stage 7 shown; `ready` tells whether the prerequisites were met. */
    method ShowArticleStage(extract: Extractor, llm: Completion) returns (ready: bool)
      requires stage == 7
      requires Valid(Data())
      modifies this
      ensures Valid(Data())
      ensures ready == Ready(old(Data()))
      ensures Data() == ShowArticle(old(Data()), extract, llm)
    {
      ready := selectedTopic != "" && selectedAngle != "" && selectedTone != "" &&
               selectedLength != "" && selectedStyle != "";
      if ready && finalArticle == "" && articleOutline.Some? {
        finalArticle := GenerateArticle(articleOutline.value, selectedTopic, selectedAngle, selectedTone,
                                        selectedLength, selectedStyle, recentArticles, extract, llm);
      }
    }

    /** Stage 7 without its prerequisites: the button back to the parameters. */
    method BackToParameters()
      requires stage == 7 && !Ready(Data())
      requires Valid(Data())
      modifies this
      ensures Valid(Data())
      ensures Data() == old(Data()).(stage := 5)
    {
      stage := 5;
    }

    /** Stage 7, the regenerate button: the article is cleared and written again when the stage is shown. */
    method RegenerateArticle()
      requires stage == 7
      requires Valid(Data())
      modifies this
      ensures Valid(Data())
      ensures Data() == old(Data()).(finalArticle := "")
    {
      finalArticle := "";
    }

    /** Stage 7, the button back to the plan. */
    method BackToOutline()
      requires stage == 7
      requires Valid(Data())
      modifies this
      ensures Valid(Data())
      ensures Data() == old(Data()).(stage := 6)
    {
      stage := 6;
    }
  }
}
