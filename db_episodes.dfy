/**
 * The database-backed episode routes: list all rows, create a row unless the title is
 * taken (the database assigns its id), and generate an alternative title or description
 * of a stored row through the prompter.
 */
module DbEpisodes {
  import opened Wrappers
  import opened EpisodeModels
  import opened Exceptions
  import opened Llm

  datatype AltEpisodeRequest = AltEpisodeRequest(target: string, prompt: string)

  datatype AltEpisodeResponse = AltEpisodeResponse(
    originalEpisode: PodcastEpisodeDB,
    target: string,
    prompt: string,
    generatedAlternative: string)

  /** The exceptions the routes raise: conflict, not found, and the wrapped prompter failure. */
  datatype RouteError =
    | EpisodeExists(title: string)
    | EpisodeNotFound(episodeId: int)
    | LLMError(exception: ApiException)

  /** The position of the first row matching `where`, or `|rows|` when none does. */
  function FirstIndex(rows: seq<PodcastEpisodeDB>, where: PodcastEpisodeDB -> bool): (k: nat)
    ensures k <= |rows|
    ensures k < |rows| ==> where(rows[k])
    ensures forall j :: 0 <= j < k ==> !where(rows[j])
  {
    if rows == [] then 0
    else if where(rows[0]) then 0
    else 1 + FirstIndex(rows[1..], where)
  }

  /** `session.exec(select(PodcastEpisodeDB).where(...)).first()`. */
  function First(rows: seq<PodcastEpisodeDB>, where: PodcastEpisodeDB -> bool): (r: Option<PodcastEpisodeDB>)
    ensures r.None? <==> forall j :: 0 <= j < |rows| ==> !where(rows[j])
    ensures r.Some? ==> r.value in rows && where(r.value)
  {
    var k := FirstIndex(rows, where);
    if k < |rows| then Some(rows[k]) else None
  }

  /** The `where` clauses of the two queries: `PodcastEpisodeDB.title == title` and `PodcastEpisodeDB.id == id`. */
  function TitleIs(title: string): PodcastEpisodeDB -> bool {
    (row: PodcastEpisodeDB) => row.title == title
  }

  function IdIs(id: int): PodcastEpisodeDB -> bool {
    (row: PodcastEpisodeDB) => row.id == id
  }

  /** The largest id in the table, or 0 when no id is positive (so 0 for an empty table). */
  function MaxId(rows: seq<PodcastEpisodeDB>): (m: int)
    ensures m >= 0
    ensures forall j :: 0 <= j < |rows| ==> rows[j].id <= m
    ensures m == 0 || exists j :: 0 <= j < |rows| && rows[j].id == m
  {
    if rows == [] then 0
    else
      var rest := MaxId(rows[1..]);
      if rows[0].id > rest then rows[0].id else rest
  }

  /**
   * The id the database gives the next inserted row (the integer primary key rule:
   * one more than the largest id in use, so 1 in an empty table): positive and unused.
   */
  function NextId(rows: seq<PodcastEpisodeDB>): (id: int)
    ensures id >= 1
    ensures forall j :: 0 <= j < |rows| ==> rows[j].id < id
    ensures rows == [] ==> id == 1
  {
    MaxId(rows) + 1
  }

  predicate HasTitle(rows: seq<PodcastEpisodeDB>, title: string) {
    exists j :: 0 <= j < |rows| && rows[j].title == title
  }

  predicate HasId(rows: seq<PodcastEpisodeDB>, id: int) {
    exists j :: 0 <= j < |rows| && rows[j].id == id
  }

  /** The field of `row` that `target` asks to rewrite. */
  function TargetField(row: PodcastEpisodeDB, target: string): string {
    if target == "title" then row.title else row.description
  }

  /** The table of episodes, as the request's session sees it. */
  class Session {
    var rows: seq<PodcastEpisodeDB>

    /** Ids are positive and unique (the primary key); titles are unique (kept by `AddEpisode`). */
    ghost predicate Valid()
      reads this
    {
      && (forall j :: 0 <= j < |rows| ==> rows[j].id >= 1)
      && (forall i, j :: 0 <= i < j < |rows| ==> rows[i].id != rows[j].id && rows[i].title != rows[j].title)
    }

    constructor ()
      ensures Valid() && rows == []
    {
      rows := [];
    }

    /** `get_episodes`: every stored row, in table order; nothing changes. */
    method GetEpisodes() returns (r: seq<PodcastEpisodeDB>)
      ensures r == rows
    {
      r := rows;
    }

    /**
     * `add_episode`: conflict when some row has the payload's title, and the table is
     * unchanged; otherwise exactly one row is added, carrying the payload and a fresh id,
     * and that row is returned.
     */
    method AddEpisode(episode: PodcastEpisode) returns (r: Result<PodcastEpisodeDB, RouteError>)
      requires Valid()
      modifies this
      ensures Valid()
      ensures HasTitle(old(rows), episode.title) ==>
                r == Failure(EpisodeExists(episode.title)) && rows == old(rows)
      ensures !HasTitle(old(rows), episode.title) ==>
                && r.Success?
                && r.value.Payload() == episode
                && r.value.id == NextId(old(rows))
                && rows == old(rows) + [r.value]
    {
      if First(rows, TitleIs(episode.title)).Some? {
        return Failure(EpisodeExists(episode.title));
      }
      var dbEpisode := ToRow(episode, NextId(rows));
      rows := rows + [dbEpisode];
      r := Success(dbEpisode);
    }

    /**
     * `generate_alternative`: not found exactly when no row has the id; otherwise the
     * prompter gets the request's prompt as its system input and the targeted field as
     * its user input, a failure becomes `LLMException(str(e))`, and a success echoes the
     * stored row, the target and the prompt beside the generated text.
     */
    function GenerateAlternative(episodeId: int, payload: AltEpisodeRequest, llm: Prompter)
      : (r: Result<AltEpisodeResponse, RouteError>)
      reads this
      ensures r == Failure(EpisodeNotFound(episodeId)) <==> !HasId(rows, episodeId)
      ensures r.Success? ==>
                && r.value.originalEpisode in rows
                && r.value.originalEpisode.id == episodeId
                && r.value.target == payload.target
                && r.value.prompt == payload.prompt
                && llm(payload.prompt, TargetField(r.value.originalEpisode, payload.target))
                   == Completed(r.value.generatedAlternative)
      ensures r.Failure? && r != Failure(EpisodeNotFound(episodeId)) ==>
                && r.error.LLMError?
                && exists row :: row in rows && row.id == episodeId &&
                     var out := llm(payload.prompt, TargetField(row, payload.target));
                     out.Raised? && r.error.exception == LLMException(out.error)
    {
      var found := First(rows, IdIs(episodeId));
      if found.None? then Failure(EpisodeNotFound(episodeId))
      else
        var dbEpisode := found.value;
        var original := TargetField(dbEpisode, payload.target);
        match llm(payload.prompt, original)
        case Raised(e) => Failure(LLMError(LLMException(e)))
        case Completed(alternative) =>
          Success(AltEpisodeResponse(dbEpisode, payload.target, payload.prompt, alternative))
    }
  }

  /**
   * For an id that no row has, the answer is not found whatever the prompter would do:
   * the prompter is never consulted.
   */
  lemma NotFoundIgnoresPrompter(session: Session, episodeId: int, payload: AltEpisodeRequest,
                                llm: Prompter, other: Prompter)
    requires !HasId(session.rows, episodeId)
    ensures session.GenerateAlternative(episodeId, payload, llm) == Failure(EpisodeNotFound(episodeId))
    ensures session.GenerateAlternative(episodeId, payload, llm)
         == session.GenerateAlternative(episodeId, payload, other)
  {
  }

  /**
   * In a valid table the row with the requested id is the one used: the outcome is
   * determined by what the prompter does with that row's targeted field.
   */
  lemma GenerateAlternativeForRow(session: Session, k: nat, payload: AltEpisodeRequest, llm: Prompter)
    requires session.Valid() && k < |session.rows|
    ensures var row := session.rows[k];
            session.GenerateAlternative(row.id, payload, llm)
            == match llm(payload.prompt, TargetField(row, payload.target))
               case Completed(text) => Success(AltEpisodeResponse(row, payload.target, payload.prompt, text))
               case Raised(e) => Failure(LLMError(LLMException(e)))
  {
  }
}
