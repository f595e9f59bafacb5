/**
 * The service's test scenarios, stated and proved of the model: a fresh table, the
 * test prompter that always answers "TEST PROMPTER OUTPUT", and the sample episode.
 * `AlternativeFailureResponse` is not one of the service's tests: it follows a
 * prompter failure in `generate_alternative` through to the client's response.
 */
module EpisodeTests {
  import opened Wrappers
  import opened EpisodeModels
  import opened Exceptions
  import opened Llm
  import opened DbEpisodes

  /** The test double installed in place of the real prompter. */
  function TestPrompter(promptSys: string, promptUser: string): PromptOutcome {
    Completed("TEST PROMPTER OUTPUT")
  }

  const Sample: PodcastEpisode :=
    PodcastEpisode("The Future of AI", "We discuss upcoming trends in artificial intelligence.", "Joe Rogan")

  /** `test_get_episodes`: an empty table lists no episodes. */
  method TestGetEpisodes() returns (listed: seq<PodcastEpisodeDB>)
    ensures listed == []
  {
    var session := new Session();
    listed := session.GetEpisodes();
  }

  /** Posting the same payload twice: the first call stores it, the second is a conflict. */
  method AddEpisodeTwice(session: Session, episode: PodcastEpisode)
    returns (first: Result<PodcastEpisodeDB, RouteError>, duplicate: Result<PodcastEpisodeDB, RouteError>)
    requires session.Valid() && !HasTitle(session.rows, episode.title)
    modifies session
    ensures session.Valid()
    ensures first.Success? && first.value.Payload() == episode && first.value.id == NextId(old(session.rows))
    ensures duplicate == Failure(EpisodeExists(episode.title))
    ensures session.rows == old(session.rows) + [first.value]
  {
    first := session.AddEpisode(episode);
    assert session.rows[|session.rows| - 1].title == episode.title;
    duplicate := session.AddEpisode(episode);
  }

  /** `test_add_episode`: the first post gets id 1, the repeat is refused, one row stays. */
  method TestAddEpisode()
    returns (first: Result<PodcastEpisodeDB, RouteError>, duplicate: Result<PodcastEpisodeDB, RouteError>,
             listed: seq<PodcastEpisodeDB>)
    ensures first == Success(PodcastEpisodeDB(1, Sample.title, Sample.description, Sample.host))
    ensures duplicate == Failure(EpisodeExists(Sample.title))
    ensures listed == [first.value]
  {
    var session := new Session();
    first, duplicate := AddEpisodeTwice(session, Sample);
    listed := session.GetEpisodes();
  }

  /**
   * `test_alternative`: after one post, asking for an alternative description of
   * episode 1 echoes the stored row and returns the prompter's text.
   */
  method TestAlternative() returns (response: Result<AltEpisodeResponse, RouteError>)
    ensures response == Success(AltEpisodeResponse(
              PodcastEpisodeDB(1, Sample.title, Sample.description, Sample.host),
              "description", "Rewrite for Gen Z user", "TEST PROMPTER OUTPUT"))
  {
    var session := new Session();
    var listed := session.GetEpisodes();
    assert |listed| == 0;
    var created := session.AddEpisode(Sample);
    GenerateAlternativeForRow(session, 0, AltEpisodeRequest("description", "Rewrite for Gen Z user"), TestPrompter);
    response := session.GenerateAlternative(1, AltEpisodeRequest("description", "Rewrite for Gen Z user"), TestPrompter);
  }

  /**
   * A prompter failure seen by a client: once `LLMException` is registered and the
   * handlers are installed, the wrapped failure is answered with status 500 and the
   * message "Unexpected server error: " followed by the prompter's error text.
   */
  method AlternativeFailureResponse(error: string) returns (response: Option<JsonResponse>)
    ensures response == Some(JsonResponse(500, ServerErrorPrefix + error))
  {
    var registry := new Registry();
    var decorated := registry.HandledError(LLMExceptionKind);
    var app := new App();
    InitHandlers(app, registry);
    assert app.exceptionHandlers[0..] == app.exceptionHandlers;

    var session := new Session();
    var created := session.AddEpisode(Sample);
    var failing: Prompter := (promptSys: string, promptUser: string) => Raised(error);
    var outcome := session.GenerateAlternative(1, AltEpisodeRequest("title", "Shorter"), failing);
    GenerateAlternativeForRow(session, 0, AltEpisodeRequest("title", "Shorter"), failing);
    response := app.Dispatch(Request("/episodes/1/generate_alternative"), outcome.error.exception);
  }
}
