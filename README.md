# Podcast episode service, modelled in Dafny

A small HTTP service stores podcast episodes (title, description, host). It refuses to
create an episode whose title is already stored. It can also ask a text-generation
"prompter" for an alternative title or description of a stored episode. Two versions of
the storage are modelled:

- the early in-memory version (`src/routers/episodes.py`). A process-wide list is
  scanned for the title and then appended to. This is `MemoryEpisodes.EpisodeList`,
  whose invariant is that titles are pairwise distinct.
- the database version (`app/routers/episodes.py`). The session's table is
  `DbEpisodes.Session`, a sequence of `PodcastEpisodeDB` rows. Its invariant is that ids
  are positive and unique and that titles are unique. The `select … where … .first()`
  queries are `First`/`FirstIndex`. The database gives a new row the id `NextId`: one
  more than the largest id in use, so 1 in an empty table. This is the integer primary
  key rule, and the test that posts to `/episodes/1/…` relies on it.
  `generate_alternative` is the read-only function `Session.GenerateAlternative`. It
  takes the prompter as an opaque total function `(prompt_sys, prompt_user) -> Completed(text) | Raised(str(e))`.

The exception registry (`app/exceptions.py`) is `Exceptions.Registry`, a
`map<Kind, Handler>`. Each `handled_error` creates a new `inner_handler` closure. A
closure is identified by a serial number, so re-registering a class visibly replaces its
entry. `Exceptions.App` records the application's `add_exception_handler` calls in
order. `App.Dispatch` is the framework's answer to a raised exception: the installed
handler's result, which is `exc.into_json()`, or nothing for a class with no handler.
`Llm.LLMException` is the 500 error that every prompter failure becomes.
`EpisodeTests` states the scenarios of `app/tests/test_episodes.py` and proves their
outcomes, with the test prompter.

Two choices follow what the code allows:

- Any `target` other than `"title"` selects the description (`app/routers/episodes.py:60`).
  The request type that could limit the values is not part of this model.
- `handled_error` may register a class again, and the new handler replaces the old one
  (`app/exceptions.py:33`).

The source defines `PodcastEpisode` twice: a pydantic model with required fields
(`src/episode.py:4-7`) and a SQLModel class whose fields default to `None`
(`app/models/episode.py:4-7`). The model uses one datatype, `EpisodeModels.PodcastEpisode`,
for both definitions, with every field present. `PodcastEpisodeDB` adds the id.

## Model

| member | source | states |
|---|---|---|
| `MemoryEpisodes.AnyTitle` | src/routers/episodes.py:18 | the scan answers true exactly when some stored episode has the given title |
| `MemoryEpisodes.EpisodeList.constructor` | src/routers/episodes.py:8 | the module list starts empty, and an empty list has distinct titles |
| `MemoryEpisodes.EpisodeList.GetEpisodes` | src/routers/episodes.py:11-13 | returns the stored list as it is and changes nothing |
| `MemoryEpisodes.EpisodeList.AddEpisode` | src/routers/episodes.py:16-21 | a stored title gives `EpisodeExists(title)` and leaves the list unchanged; otherwise the list becomes the old list plus exactly that episode at the end, earlier entries and their order stay, the episode is returned, and titles stay pairwise distinct |
| `DbEpisodes.FirstIndex` | app/routers/episodes.py:34-36 | the position of the first row matching the query; `|rows|` when no row matches |
| `DbEpisodes.First` | app/routers/episodes.py:53-55 | `.first()` is empty exactly when no row matches; otherwise it is a stored row that matches |
| `DbEpisodes.MaxId` | app/routers/episodes.py:40-42 | the largest id in the table, or 0 when the table is empty or holds no positive id: every id is at most the result, which is not negative and is 0 or some row's id |
| `DbEpisodes.NextId` | app/routers/episodes.py:40-42 | the id the database assigns is positive, larger than every id in use (so fresh), and 1 for an empty table |
| `DbEpisodes.Session.constructor` | app/tests/test_episodes.py:27-32 | a new table is empty and valid |
| `DbEpisodes.Session.GetEpisodes` | app/routers/episodes.py:18-23 | returns every stored row and changes nothing |
| `DbEpisodes.Session.AddEpisode` | app/routers/episodes.py:26-43 | when some row has the payload's title: `EpisodeExists(title)` and the table is unchanged. Otherwise exactly one row is appended and returned; it has the payload's fields and the fresh id `NextId`. Unique ids and titles are preserved |
| `DbEpisodes.Session.GenerateAlternative` | app/routers/episodes.py:46-71 | `EpisodeNotFound(id)` exactly when no row has the id. On success the response holds a stored row with that id, the request's target and prompt verbatim, and the prompter's output for (the request's prompt, the row's title if target is "title", else its description). Any other failure is `LLMException(str(e))` for that prompter call. |
| `DbEpisodes.TargetField` | app/routers/episodes.py:60 | the field a request rewrites: the title when `target` is "title", the description for any other target; its use is fixed by `Session.GenerateAlternative` |
| `DbEpisodes.NotFoundIgnoresPrompter` | app/routers/episodes.py:53-58 | for an unknown id the answer is not found whatever the prompter does, so it is never consulted |
| `DbEpisodes.GenerateAlternativeForRow` | app/routers/episodes.py:53-71 | in a valid table, asking with a row's id uses that row; the result is the completed response or the wrapped failure, as the prompter decides |
| `Llm.LLMException` | app/dependencies/llm.py:35-48 | the exception a prompter failure becomes; its status and rendering are stated by `Llm.LLMExceptionRendering` |
| `Llm.LLMExceptionRendering` | app/dependencies/llm.py:35-48 | an `LLMException` has status 500 and renders status 500; its message is "Unexpected server error: " followed by the message given; distinct messages render distinctly |
| `Exceptions.Registry.constructor` | app/exceptions.py:21 | the registry starts empty |
| `Exceptions.Registry.HandledError` | app/exceptions.py:29-35 | returns the class unchanged. Afterwards the class has an entry: a newly created handler that replaces any earlier one. Every other class's entry is unchanged |
| `Exceptions.App.AddExceptionHandler` | app/exceptions.py:26 | one more (class, handler) installation is recorded at the end |
| `Exceptions.FindHandler` | app/exceptions.py:24-26 | a handler is found for a class exactly when one was installed for it, and it is the handler of the latest installation for that class |
| `Exceptions.Invoke` | app/exceptions.py:30-31 | calling an `inner_handler`: the result is the raised exception's `into_json()`, as `Exceptions.App.Dispatch` states for every installed handler |
| `Exceptions.App.Dispatch` | app/exceptions.py:29-31 | a raised exception is answered when its class has an installed handler, and then the answer is exactly its `into_json()` |
| `Exceptions.InitHandlers` | app/exceptions.py:24-26 | installs one pair per registry entry (the entry's class and handler), each class once, after the earlier installations. The count grows by the registry's size and the registry is unchanged |
| `Exceptions.DispatchAfterInit` | app/exceptions.py:24-31 | after the installations of `init_handlers`, a registered class finds its registry handler; any other class finds what it found before |
| `EpisodeTests.TestGetEpisodes` | app/tests/test_episodes.py:62-66 | an empty table lists no episodes |
| `EpisodeTests.AddEpisodeTwice` | app/tests/test_episodes.py:76-82 | posting a new payload twice: the first call stores it with a fresh id, the second is `EpisodeExists`, and one row is added |
| `EpisodeTests.TestAddEpisode` | app/tests/test_episodes.py:69-82 | in an empty table the sample is stored with id 1, the repeat is refused, and the listing holds just that row |
| `EpisodeTests.TestPrompter` | app/tests/test_episodes.py:14-16 | the test double: whatever it is given, it answers "TEST PROMPTER OUTPUT"; `EpisodeTests.TestAlternative` uses it |
| `EpisodeTests.TestAlternative` | app/tests/test_episodes.py:85-101 | after one post, the alternative for episode 1 holds the stored row with id 1 and the sample's fields, the echoed target and prompt, and "TEST PROMPTER OUTPUT" |
| `EpisodeTests.AlternativeFailureResponse` | app/routers/episodes.py:61-64 | with `LLMException` registered and the handlers installed, a prompter failure reaches the client as status 500 with "Unexpected server error: " followed by the error text |

## Left out

- `DeepSeekPrompter` and the DeepSeek client (`app/dependencies/llm.py:26-29, 51-61`) are foreign network code. The prompter is an opaque function. So the fixed system-prompt prefix put before `prompt_sys`, and the 50-token output limit, are not modelled.
- Database engine creation, environment loading and table creation (`app/dependencies/database.py`, `src/dependencies/database.py`) are I/O and are not modelled. The session is the table's contents.
- SQL semantics are abstracted. `select … where … .first()` is the first matching row in table order. `add`/`commit`/`refresh` are one append and the assignment of `NextId`.
- App assembly and router wiring (`app/main.py`, `src/main.py`) are not modelled. The order they fix (decorate, then install) is shown only in `EpisodeTests.AlternativeFailureResponse`.
- Request validation and JSON serialisation (pydantic/FastAPI) are not modelled. Payloads are datatypes, and a response is its status plus its `message` field.
- `EpisodeExists` and `EpisodeNotFound` are modelled only as error outcomes. Their definitions and renderings are not part of this model.
- Concurrency is not modelled: one request runs at a time. So the check-then-insert race between simultaneous creates cannot arise in the model, and neither can the asynchronous execution of handlers.
- `Exceptions.InitHandlers`: does not state the order of installation. A Python dict iterates in insertion order; the model picks the remaining entries in any order.
- `Exceptions.App.Dispatch`: the framework looks a handler up by exact class and keeps the latest one installed. Subclass lookup through the class hierarchy is not modelled.
- The request object passed to a handler is opaque, because handlers ignore it.
