/** `create_title_slide`, `create_slide_contents` and `create_presentations`:
    a deck is one title slide followed by one content slide for every
    generated title after the first, saved under a path made from the topic.
    The chat model and the image model are parameters: each is the answer it
    gives to a prompt. */
module Deck {
  import opened Titles

  /** The PNG bytes of one generated illustration. */
  type Image = seq<bv8>

  datatype Option<T> = None | Some(value: T)

  /** The two requests sent to the chat model, by what they ask for. */
  datatype Prompt =
    | TitlesRequest(topic: string, numSlides: string)
    | ContentsRequest(slideTitle: string)

  /** The remote services the deck is built from. `chat` is the text of the
      first completion for a prompt; `image` is the picture generated and
      downloaded for a prompt, `None` standing for a falsy result. */
  datatype Services = Services(chat: Prompt -> string, image: string -> Option<Image>)

  /** The shapes a slide receives besides its title placeholder. */
  datatype Shape = Subtitle(text: string) | TextBox(paragraph: string) | Picture(png: Image)

  /** A slide: the index of its layout in the template, the text of its
      title placeholder, and the other placeholders filled and shapes added
      to it, in order. */
  datatype Slide = Slide(layout: nat, title: string, shapes: seq<Shape>)

  /** `slide_titles.pop(0)` on an empty list raises `IndexError`. */
  datatype DeckError = EmptyTitleList

  datatype Result<T, E> = Ok(value: T) | Err(error: E)

  /** What a successful `create_presentations` leaves behind: the path it
      returns and the slides of the file saved at that path. */
  datatype Artifact = Artifact(path: string, slides: seq<Slide>)

  /** `slide_layouts[0]`, the template's title layout. */
  const TitleLayout: nat := 0
  /** `slide_layouts[5]`, the template's title-only layout. */
  const TitleOnlyLayout: nat := 5
  const SubtitleText: string := "AI Version"
  const OutputDir: string := "powerpoint-ppt"
  const Extension: string := ".pptx"

  /** `create_slide_title`: the titles read from the chat model's reply. */
  function CreateSlideTitle(svc: Services, topic: string, numSlides: string): (ts: seq<string>)
    ensures forall k :: 0 <= k < |ts| ==> IsTitle(ts[k])
  {
    SlideTitles(svc.chat(TitlesRequest(topic, numSlides)))
  }

  /** `create_slide_contents`: the paragraph the chat model writes for a title. */
  function SlideContents(svc: Services, title: string): string {
    svc.chat(ContentsRequest(title))
  }

  /** The path the deck for `topic` is saved at and returned as. */
  function OutputPath(topic: string): string {
    OutputDir + "/" + topic + Extension
  }

  /** The slide `create_title_slide` adds. */
  function TitleSlide(topic: string): Slide {
    Slide(TitleLayout, topic, [Subtitle(SubtitleText)])
  }

  /** The slide one iteration of the loop in `create_presentations` adds: the
      paragraph in a text box, then the picture when the image model returned one. */
  function ContentSlide(svc: Services, title: string): Slide {
    var body := SlideContents(svc, title);
    var picture := match svc.image(body) case Some(png) => [Picture(png)] case None => [];
    Slide(TitleOnlyLayout, title, [TextBox(body)] + picture)
  }

  /** The content slides for `titles`, in order. */
  function ContentSlides(svc: Services, titles: seq<string>): seq<Slide> {
    if titles == [] then [] else [ContentSlide(svc, titles[0])] + ContentSlides(svc, titles[1..])
  }

  /** The outcome of `create_presentations(topic, num_slides)`. */
  function PlannedDeck(svc: Services, topic: string, numSlides: string): Result<Artifact, DeckError> {
    var titles := CreateSlideTitle(svc, topic, numSlides);
    if titles == [] then Err(EmptyTitleList)
    else Ok(Artifact(OutputPath(topic), [TitleSlide(topic)] + ContentSlides(svc, titles[1..])))
  }

  /** Appending a title appends its slide. */
  lemma {:induction false} ContentSlidesSnoc(svc: Services, titles: seq<string>, t: string)
    ensures ContentSlides(svc, titles + [t]) == ContentSlides(svc, titles) + [ContentSlide(svc, t)]
  {
    if titles == [] {
      assert [t][1..] == [];
    } else {
      assert (titles + [t])[1..] == titles[1..] + [t];
      ContentSlidesSnoc(svc, titles[1..], t);
    }
  }

  /** The deck after one more loop pass: the next title's slide is appended. */
  lemma DeckGrows(svc: Services, topic: string, titles: seq<string>, i: nat)
    requires i < |titles|
    ensures [TitleSlide(topic)] + ContentSlides(svc, titles[..i + 1])
         == [TitleSlide(topic)] + ContentSlides(svc, titles[..i]) + [ContentSlide(svc, titles[i])]
  {
    assert titles[..i + 1] == titles[..i] + [titles[i]];
    ContentSlidesSnoc(svc, titles[..i], titles[i]);
  }

  /** One content slide per title, the k-th made from the k-th title. */
  lemma {:induction false} ContentSlidesAt(svc: Services, titles: seq<string>)
    ensures |ContentSlides(svc, titles)| == |titles|
    ensures forall k :: 0 <= k < |titles| ==> ContentSlides(svc, titles)[k] == ContentSlide(svc, titles[k])
  {
    if titles != [] {
      ContentSlidesAt(svc, titles[1..]);
    }
  }

  /** The deck fails exactly when the reply holds no title; otherwise it has
      one title slide carrying the topic and the fixed subtitle, followed by
      one content slide per title after the first, in order. */
  lemma DeckShape(svc: Services, topic: string, numSlides: string)
    ensures var titles := CreateSlideTitle(svc, topic, numSlides);
      match PlannedDeck(svc, topic, numSlides)
      case Err(e) => titles == [] && e == EmptyTitleList
      case Ok(deck) =>
        && titles != []
        && |deck.slides| == |titles|
        && deck.slides[0] == Slide(TitleLayout, topic, [Subtitle("AI Version")])
        && forall k :: 1 <= k < |titles| ==>
             && deck.slides[k].layout == TitleOnlyLayout
             && deck.slides[k].title == titles[k]
             && |deck.slides[k].shapes| >= 1
             && deck.slides[k].shapes[0] == TextBox(SlideContents(svc, titles[k]))
  {
    var titles := CreateSlideTitle(svc, topic, numSlides);
    if titles != [] {
      ContentSlidesAt(svc, titles[1..]);
    }
  }

  /** A content slide carries a picture exactly when the image model returned
      one for its paragraph, and then it is that picture; otherwise the slide
      holds only its text box. */
  lemma PictureOnlyWhenReturned(svc: Services, topic: string, numSlides: string, k: nat)
    requires PlannedDeck(svc, topic, numSlides).Ok?
    requires 1 <= k < |PlannedDeck(svc, topic, numSlides).value.slides|
    ensures var slide := PlannedDeck(svc, topic, numSlides).value.slides[k];
      var image := svc.image(SlideContents(svc, slide.title));
      && (image.None? ==> slide.shapes == [TextBox(SlideContents(svc, slide.title))])
      && (image.Some? ==> slide.shapes == [TextBox(SlideContents(svc, slide.title)), Picture(image.value)])
  {
    DeckShape(svc, topic, numSlides);
    var titles := CreateSlideTitle(svc, topic, numSlides);
    ContentSlidesAt(svc, titles[1..]);
  }

  /** The returned path depends on the topic alone: neither the requested
      slide count nor anything the services answer changes it. */
  lemma PathOfTopic(svc: Services, topic: string, numSlides: string)
    requires PlannedDeck(svc, topic, numSlides).Ok?
    ensures PlannedDeck(svc, topic, numSlides).value.path == "powerpoint-ppt/" + topic + ".pptx"
  {
    assert OutputDir + "/" == "powerpoint-ppt/";
  }

  /** Two topics share a path exactly when they are the same topic, so a second
      deck on a topic overwrites the first and never another topic's file. */
  lemma OutputPathInjective(a: string, b: string)
    ensures OutputPath(a) == OutputPath(b) <==> a == b
  {
    if OutputPath(a) == OutputPath(b) {
      var n := |OutputDir + "/"|;
      assert |a| == |b|;
      assert a == OutputPath(a)[n..n + |a|];
      assert b == OutputPath(b)[n..n + |b|];
    }
  }

  /** A presentation being assembled in place. */
  class Presentation {
    var slides: seq<Slide>

    /** `Presentation()`: an empty deck. */
    constructor ()
      ensures slides == []
    {
      slides := [];
    }

    /** `slides.add_slide(layout)` followed by setting the title placeholder. */
    method AddSlide(layout: nat, title: string)
      modifies this
      ensures slides == old(slides) + [Slide(layout, title, [])]
    {
      slides := slides + [Slide(layout, title, [])];
    }

    /** Adds a shape to the `k`-th slide, after the shapes it already has;
        every other slide is left as it was. */
    method AddShape(k: nat, shape: Shape)
      requires k < |slides|
      modifies this
      ensures slides == old(slides)[k := old(slides)[k].(shapes := old(slides)[k].shapes + [shape])]
    {
      slides := slides[k := slides[k].(shapes := slides[k].shapes + [shape])];
    }
  }

  /** `create_title_slide`: appends the title slide for `topic`. */
  method CreateTitleSlide(p: Presentation, topic: string)
    modifies p
    ensures p.slides == old(p.slides) + [TitleSlide(topic)]
  {
    p.AddSlide(TitleLayout, topic);
    var k := |p.slides| - 1;
    p.AddShape(k, Subtitle(SubtitleText));
    assert [] + [Subtitle(SubtitleText)] == [Subtitle(SubtitleText)];
    assert p.slides[k] == TitleSlide(topic);
    assert p.slides == old(p.slides) + [p.slides[k]];
  }

  /** The body of the loop in `create_presentations`: appends the content
      slide for `title`, with a picture only when the image model returned one. */
  method AddContentSlide(p: Presentation, svc: Services, title: string)
    modifies p
    ensures p.slides == old(p.slides) + [ContentSlide(svc, title)]
  {
    p.AddSlide(TitleOnlyLayout, title);
    var k := |p.slides| - 1;
    p.AddShape(k, TextBox(SlideContents(svc, title)));
    assert [] + [TextBox(SlideContents(svc, title))] == [TextBox(SlideContents(svc, title))];
    var dalleImage := svc.image(SlideContents(svc, title));
    if dalleImage.Some? {
      p.AddShape(k, Picture(dalleImage.value));
    }
    assert p.slides[k] == ContentSlide(svc, title);
    assert p.slides == old(p.slides) + [p.slides[k]];
  }

  /** `create_presentations(topic, num_slides)`: builds the deck slide by
      slide and returns the path it is saved at, or fails at `pop(0)` when
      the reply held no title. */
  method CreatePresentations(svc: Services, topic: string, numSlides: string) returns (r: Result<Artifact, DeckError>)
    ensures r == PlannedDeck(svc, topic, numSlides)
  {
    var powerpoint := new Presentation();
    CreateTitleSlide(powerpoint, topic);
    var slideTitles := CreateSlideTitle(svc, topic, numSlides);
    if slideTitles == [] {
      return Err(EmptyTitleList);
    }
    slideTitles := slideTitles[1..];
    var i := 0;
    while i < |slideTitles|
      invariant 0 <= i <= |slideTitles|
      invariant powerpoint.slides == [TitleSlide(topic)] + ContentSlides(svc, slideTitles[..i])
    {
      DeckGrows(svc, topic, slideTitles, i);
      AddContentSlide(powerpoint, svc, slideTitles[i]);
      i := i + 1;
    }
    assert slideTitles[..|slideTitles|] == slideTitles;
    r := Ok(Artifact(OutputPath(topic), powerpoint.slides));
  }
}
