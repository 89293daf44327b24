# AI presentation generator, modelled in Dafny

The two scripts `assistant-gpt.py` and `call-gpt3.py` build a PowerPoint deck on a
topic. A chat model proposes slide titles as one sentence-per-title reply, which is
split into titles. A title slide is added, the first proposed title is dropped, and one
content slide per remaining title follows. Each content slide has a generated paragraph
and, when the image generator returns one, a picture. The deck is saved under
`powerpoint-ppt/<topic>.pptx` and that path is returned. In `assistant-gpt.py` the
builder is a tool of an assistant run, and a polling loop answers the run's
`requires_action` requests by calling it.

The project has four modules:

- `Text` (`text.dfy`) models Python's `str.isspace`, `str.strip()`, `str.split(sep)` and
  `sep.join`. It proves that `strip` is the unique maximal trim and that split and join
  are inverse.
- `Titles` (`titles.dfy`) models the title post-processing of `create_slide_title`
  (split on `'.'`, strip, drop blank fragments).
- `Deck` (`deck.dfy`) models `create_title_slide` and `create_presentations`. A
  `Presentation` class holds the slide list that the methods append to in place. The
  method `CreatePresentations` is proved equal to the specification function
  `PlannedDeck`, whose shape is proved in lemmas.
- `Dispatch` (`dispatch.dfy`) models the tool-call walk of a `requires_action` poll and
  the polling loop over a finite trace of retrieved statuses. The loop's state lives in
  a `Dispatcher` class, and `Run` is its specification function.

Both scripts define `create_slide_title`, `create_slide_contents`, `create_title_slide`
and `create_presentations` with the same bodies, so one model serves both.

The remote services are parameters. The chat model is a total function from a
structured prompt to its reply. The image generator is a function from the slide text to
an optional image, where `None` stands for a falsy return. The presentation builder seen
by the polling loop is a function from `(topic, num_slides)` to either the returned path
or the fact that it raised. `Dispatch.PresentationBuilder` instantiates it with the deck
of `Deck`, which raises exactly when no slide titles come back.

Three places where the code's behaviour is easy to misread:

- Titles never contain `'.'`, because the reply is split on `'.'`. A reply
  `"Intro. Testing Basics."` gives the titles `Intro` and `Testing Basics`, with no
  trailing period (`Titles.FourSentenceReply`).
- An image that fails to generate raises, and the exception leaves
  `create_presentations`. Only a falsy return skips the picture.
- Any status other than `completed` and `requires_action`, including `failed`,
  `cancelled` or `expired`, only makes the loop wait. The loop leaves only on
  `completed`, or by an exception while answering a batch: an unknown tool name, a
  missing argument, or an exception raised by `create_presentations` itself.

## Model

| member | source | states |
|---|---|---|
| Text.IsSpace | assistant-gpt.py:107 | defines the characters `str.strip()` removes: Python's `str.isspace` set (ASCII blanks and controls 0x1C-0x1F, U+0085, U+00A0 and the Unicode space separators and line/paragraph separators) |
| Text.Strip | assistant-gpt.py:107 | the stripped string has no leading or trailing whitespace, and it is empty exactly when the input is all whitespace |
| Text.StripTrims | assistant-gpt.py:107 | `strip` removes only whitespace, and only from the two ends |
| Text.StripUnique | call-gpt3.py:105 | any whitespace-trim of the input with no whitespace at its ends equals `strip`'s result |
| Text.StripKeepsOut | assistant-gpt.py:107 | stripping never introduces a character that was not in the input |
| Text.StripIndent | assistant-gpt.py:107 | a leading blank does not change the stripped text |
| Text.Split | assistant-gpt.py:107 | `split` yields at least one fragment, and no fragment contains the separator |
| Text.SplitCount | call-gpt3.py:105 | `split` yields one fragment more than there are separators in the input |
| Text.JoinSplit | assistant-gpt.py:107 | joining the fragments with the separator gives back the input |
| Text.SplitJoin | assistant-gpt.py:107 | splitting a join of separator-free parts gives back the parts |
| Text.SplitFree | assistant-gpt.py:107 | a string without the separator splits into itself alone |
| Text.SplitConcat | call-gpt3.py:105 | splitting at a separator splits each side independently, in order |
| Titles.KeepStripped | assistant-gpt.py:107 | the comprehension keeps at most one title per fragment, each non-empty and stripped |
| Titles.SlideTitles | assistant-gpt.py:107 | every title is non-empty, stripped and free of `'.'`, and there are at most one more titles than periods in the reply |
| Titles.KeptExactly | assistant-gpt.py:107 | a string is a title exactly when it is non-empty and is the stripped form of some fragment |
| Titles.KeepStrippedConcat | call-gpt3.py:105 | the filtered comprehension over two fragment lists is the concatenation of the two, in order |
| Titles.SlideTitlesConcat | call-gpt3.py:105 | the titles of `a + "." + b` are the titles of `a` followed by those of `b`, so the fragments' order is kept |
| Titles.SlideTitlesOfTitle | assistant-gpt.py:107 | a reply that is a single stripped, period-free title gives exactly that title |
| Titles.SlideTitlesIndent | call-gpt3.py:105 | a blank at the start of the reply does not change the titles |
| Titles.RenderRoundTrip | assistant-gpt.py:107 | rendering valid titles as `"A. B. C."` and post-processing the reply gives back the same titles |
| Titles.FourSentenceReply | assistant-gpt.py:107 | the reply `"Intro. Testing Basics. Test Coverage. Conclusion."` gives four titles with no trailing periods |
| Deck.SlideContents | assistant-gpt.py:112-120 | defines the slide paragraph as the chat model's reply to the content prompt for that title |
| Deck.TitleSlide | assistant-gpt.py:123-141 | defines the title slide: layout 0, the topic as heading, the subtitle "AI Version" |
| Deck.ContentSlide | assistant-gpt.py:157-193 | defines the slide one loop pass adds: layout 5, the title, the paragraph in a text box, then the picture when the image generator returned one |
| Deck.OutputPath | assistant-gpt.py:195-197 | defines the path the deck is saved at and returned as |
| Deck.PlannedDeck | assistant-gpt.py:144-197 | defines the outcome of `create_presentations`: the `IndexError` of `pop(0)` when no titles come back, else the path and the title slide followed by one content slide per title after the first |
| Deck.CreateSlideTitle | assistant-gpt.py:97-109 | every title derived from the chat reply to the title prompt is non-empty, stripped and period-free |
| Deck.ContentSlidesAt | assistant-gpt.py:157-193 | there is one content slide per title, and the k-th slide is made from the k-th title |
| Deck.DeckShape | assistant-gpt.py:144-197 | the deck fails exactly when no titles come back (the `pop(0)` on an empty list); otherwise it has as many slides as titles, a title slide (layout 0, the topic, subtitle "AI Version") first, then per title after the first, in order, a layout-5 slide with that title and its paragraph as first shape |
| Deck.PictureOnlyWhenReturned | call-gpt3.py:177-191 | a content slide holds only the paragraph when the image generator returns nothing, and the paragraph then the picture when it returns an image |
| Deck.PathOfTopic | call-gpt3.py:193-195 | the returned path is `powerpoint-ppt/` + topic + `.pptx`, whatever `num_slides` and the content are |
| Deck.OutputPathInjective | assistant-gpt.py:195-197 | two topics give the same path exactly when they are equal |
| Deck.Presentation.constructor | assistant-gpt.py:145 | a new presentation has no slides |
| Deck.Presentation.AddSlide | assistant-gpt.py:158 | adding a slide appends one empty slide with the given layout and title, and changes nothing else |
| Deck.Presentation.AddShape | assistant-gpt.py:175 | adding a shape appends it to that slide only |
| Deck.CreateTitleSlide | assistant-gpt.py:123-141 | the title slide with the topic and the fixed subtitle is appended to the presentation |
| Deck.AddContentSlide | call-gpt3.py:156-191 | one content slide is appended: title, paragraph, and the picture only when an image came back |
| Deck.CreatePresentations | call-gpt3.py:142-195 | the imperative builder, with its `pop(0)` and slide loop, yields exactly the planned deck and path, or the empty-list failure |
| Dispatch.Answer | assistant-gpt.py:273-285 | a call is answered exactly when it names `create_presentations`, has both arguments and the builder returns; then with the call's own id and the returned path. Otherwise it raises `ValueError` for another name, else `KeyError` for `topic`, else `KeyError` for `num_slides`, else the builder's exception |
| Dispatch.ToolOutputs | assistant-gpt.py:271-285 | defines the walk over one batch: the list of answers in call order, or the first call's exception |
| Dispatch.ToolOutputsSucceed | assistant-gpt.py:272-282 | a batch is answered exactly when every call can be; then `tool_outputs` has one entry per call, in call order, with that call's id and the builder's path for that call's arguments |
| Dispatch.ToolOutputsFirstFailure | assistant-gpt.py:276-285 | a batch with an unanswerable call fails with the exception of the first such call (`ValueError` for an unknown name, `KeyError` for a missing argument) |
| Dispatch.CollectToolOutputs | assistant-gpt.py:271-285 | the loop appending to `tool_outputs` computes exactly the batch answer or its first failure |
| Dispatch.Step | assistant-gpt.py:254-295 | defines one loop pass: `completed` breaks, `requires_action` submits the batch's answers or leaves by its exception, any other status waits; a loop already left stays as it is |
| Dispatch.RunFrom | assistant-gpt.py:241-295 | defines the loop over a finite trace of statuses as the passes applied in order |
| Dispatch.Run | assistant-gpt.py:241-295 | defines the loop from its start, polling with nothing submitted |
| Dispatch.Batches | assistant-gpt.py:267-292 | defines the batches the loop submits: the tool outputs of each `requires_action` poll, in order, up to the poll that ends the loop |
| Dispatch.RunFromAppend | assistant-gpt.py:241-295 | running the loop over two stretches of statuses is running it over one, then the other |
| Dispatch.RunFromLeft | assistant-gpt.py:266 | once the loop is left, later statuses change nothing |
| Dispatch.WaitingChangesNothing | assistant-gpt.py:293-295 | dropping every status other than `completed` and `requires_action` from the trace does not change the outcome |
| Dispatch.FinishesOnlyOnCompleted | assistant-gpt.py:255-266 | the loop breaks exactly when some poll says `completed` and every earlier poll let the loop go on |
| Dispatch.AbortSubmitsNothing | assistant-gpt.py:267-292 | a loop left by an exception was left at the first poll that did not let it go on, a `requires_action` poll whose batch raised that exception, and nothing was submitted for it or after it |
| Dispatch.SubmittedBatches | assistant-gpt.py:267-292 | for every trace, the loop's submissions are the earlier ones followed by exactly the tool outputs of each `requires_action` poll before the one that ends it, in order |
| Dispatch.StillPolling | assistant-gpt.py:255-292 | a loop still polling at the end of a trace let every poll of it go on |
| Dispatch.ActionBatches | assistant-gpt.py:267-292 | over polls that all let the loop go on, there is one batch per `requires_action` status |
| Dispatch.OneSubmissionPerAction | assistant-gpt.py:267-292 | while the loop polls on, its submissions are the earlier ones followed by one batch per `requires_action` status, each the tool outputs of that status's calls |
| Dispatch.PresentationBuilder | assistant-gpt.py:278 | defines the builder the loop calls as `create_presentations` over given remote services: the deck's path, or a raise when the deck fails |
| Dispatch.PresentationBuilderOutcome | assistant-gpt.py:153-155 | the loop's call of `create_presentations` raises exactly when no slide titles come back, and otherwise answers `powerpoint-ppt/` + topic + `.pptx` |
| Dispatch.Dispatcher.constructor | assistant-gpt.py:241 | the loop starts polling with nothing submitted |
| Dispatch.Dispatcher.Submit | assistant-gpt.py:288-292 | `submit_tool_outputs` hands exactly one batch back and the loop keeps polling |
| Dispatch.Dispatcher.Poll | assistant-gpt.py:245-295 | one pass of the loop body changes the loop's state as the specification step says |
| Dispatch.PollLoop | assistant-gpt.py:241-295 | the imperative loop over a finite trace ends in exactly the state the specification run gives, and it has read exactly the statuses up to and including the poll that ends it (all of them when none does) |

## Left out

- Every remote call (chat completions, image generation, the assistants, threads and runs API) is not modelled. Its answers are parameters of the model.
- The image is not decoded. `requests.get`, PIL and `BytesIO` are I/O; an image is an opaque byte string.
- `generate_dalle_image` raising an exception is not modelled. The image function is total, and `None` stands for a falsy return.
- Dispatch.PresentationBuilder: raises only on an empty title list, because the remote services of `Deck` are total. Exceptions from the chat or image calls inside `create_presentations` are covered only by the abstract `Builder`, which may raise for any arguments.
- The two `create_slide_contents` calls per slide (one for the paragraph, one as the image prompt) are the same deterministic chat answer. Two differing answers from a nondeterministic model are not captured.
- Prompt wording and model parameters (model names, temperature, `max_tokens`, image size) are not modelled. The chat model receives a structured request, the titles request with topic and slide count or the contents request with a title, rather than its text.
- python-pptx layout is not modelled: fonts, colours, backgrounds, text-box and picture geometry, and `word_wrap`. A slide is its layout index, title and shapes in order.
- `powerpoint.save`, `os.makedirs` and `load_dotenv` are file-system and environment I/O.
- `time.sleep`, `time.perf_counter`, the printing of progress and of the final messages, and the unbounded `while True` are not modelled. The loop is modelled over a finite trace of retrieved statuses, and its termination on a real run is not claimed.
- `json.loads` of the tool-call arguments is not modelled. The arguments arrive as an already-decoded map from names to strings.
- `create_user_ppt` in `call-gpt3.py` (lines 198-227) is a two-request remote exchange with `eval` of the reply, and is not modelled.
- The JSON-schema descriptions of the tools are static data and are not modelled.
