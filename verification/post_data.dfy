/**
 * The block logic of the post renderer: `getActualData` classifies a block
 * by its lower-cased type, normalises the block's `data` record in place
 * (default image dimensions, list content split into items) and chooses
 * what to render. The markup itself is reduced to a `Block` value.
 */
module PostData {
  import opened Wrappers
  import Js

  /** A block's `content`: a string, or an array of strings. */
  datatype Content = Str(s: string) | Items(items: seq<string>)

  /** The branches of the type switch. */
  datatype Kind = Image | Text | H1 | H2 | Youtube | Ol | Ul | Fallback

  /** The type names the switch recognises, in lower case. */
  const Recognised: set<string> := {"image", "text", "h1", "heading", "h2", "sub-heading", "youtube", "ol", "ul"}

  /** The type switch: the lower-cased type with its aliases, anything else falls through. */
  function Classify(blockType: string): Kind {
    var t := Js.ToLower(blockType);
    if t == "image" then Image
    else if t == "text" then Text
    else if t == "h1" || t == "heading" then H1
    else if t == "h2" || t == "sub-heading" then H2
    else if t == "youtube" then Youtube
    else if t == "ol" then Ol
    else if t == "ul" then Ul
    else Fallback
  }

  /** The fields of the `data` record that the switch reads or writes. */
  datatype BlockData = BlockData(blockType: string, content: Content, height: Option<int>, width: Option<int>)

  /** What a block renders to; `Placeholder` is the "??" heading of an unknown type. */
  datatype Block =
    | ImageBlock(source: Content, paddingTop: string)
    | TextBlock(text: Content)
    | Heading1(text: Content)
    | Heading2(text: Content)
    | YoutubeEmbed(title: Content, src: string)
    | OrderedList(items: seq<string>)
    | UnorderedList(items: seq<string>)
    | Placeholder(caption: string)

  const DefaultHeight := 9
  const DefaultWidth := 16
  const YoutubePrefix := "https://www.youtube.com/embed/"
  const YoutubeSuffix := "?rel=0&amp"

  /** The items of a list block: string content split on ' ', an array as it is. */
  function ListItems(c: Content): seq<string> {
    match c
    case Str(s) => Js.Split(s, ' ')
    case Items(xs) => xs
  }

  /** Content interpolated into a template string; an array joins with ','. */
  function ContentText(c: Content): string {
    match c
    case Str(s) => s
    case Items(xs) => Js.Join(xs, ',')
  }

  /** The embed URL of a YouTube block. */
  function YoutubeSrc(c: Content): string {
    YoutubePrefix + ContentText(c) + YoutubeSuffix
  }

  /** The image's top padding: the measured ratio once state holds one, else the computed one. */
  function PaddingTop(statePadding: Option<string>, aspectRatio: string): string {
    if Js.FalsyString(statePadding) then aspectRatio else statePadding.value
  }

  /** The `data` record after `getActualData` has updated it. */
  function Normalized(d: BlockData): BlockData {
    match Classify(d.blockType)
    case Image => d.(height := Js.OrNumber(d.height, DefaultHeight), width := Js.OrNumber(d.width, DefaultWidth))
    case Ol => d.(content := Items(ListItems(d.content)))
    case Ul => d.(content := Items(ListItems(d.content)))
    case _ => d
  }

  /**
   * The block `getActualData` renders for `d`, given the component's
   * `state.paddingTop` and the aspect-ratio string of a height and width.
   */
  function Rendered(d: BlockData, statePadding: Option<string>,
                    aspectRatio: (Option<int>, Option<int>) -> string): Block {
    var n := Normalized(d);
    match Classify(d.blockType)
    case Image => ImageBlock(n.content, PaddingTop(statePadding, aspectRatio(n.height, n.width)))
    case Text => TextBlock(n.content)
    case H1 => Heading1(n.content)
    case H2 => Heading2(n.content)
    case Youtube => YoutubeEmbed(n.content, YoutubeSrc(n.content))
    case Ol => OrderedList(ListItems(d.content))
    case Ul => UnorderedList(ListItems(d.content))
    case Fallback => Placeholder("??")
  }

  // ---------------------------------------------------------------------------
  // Classification

  /** Each branch is chosen by exactly its lower-cased names; everything else is the fallback. */
  lemma ClassifyCases(blockType: string)
    ensures var t := Js.ToLower(blockType);
      && (Classify(blockType) == Image <==> t == "image")
      && (Classify(blockType) == Text <==> t == "text")
      && (Classify(blockType) == H1 <==> t == "h1" || t == "heading")
      && (Classify(blockType) == H2 <==> t == "h2" || t == "sub-heading")
      && (Classify(blockType) == Youtube <==> t == "youtube")
      && (Classify(blockType) == Ol <==> t == "ol")
      && (Classify(blockType) == Ul <==> t == "ul")
      && (Classify(blockType) == Fallback <==> t !in Recognised)
  {
  }

  /** The switch ignores case: a type and its lower-cased form select the same branch. */
  lemma {:induction false} ClassifyIgnoresCase(blockType: string)
    ensures Classify(Js.ToLower(blockType)) == Classify(blockType)
  {
    Js.ToLowerIdempotent(blockType);
  }

  /** Two spellings that differ only in case select the same branch. */
  lemma ClassifySameLower(a: string, b: string)
    requires Js.ToLower(a) == Js.ToLower(b)
    ensures Classify(a) == Classify(b)
  {
  }

  /** 'h1' and 'heading' select the same branch, and so do 'h2' and 'sub-heading', in any case. */
  lemma ClassifyAliases(a: string, b: string)
    requires Js.ToLower(a) in {"h1", "heading"} && Js.ToLower(b) in {"h1", "heading"}
    ensures Classify(a) == Classify(b) == H1
  {
  }

  lemma ClassifySubAliases(a: string, b: string)
    requires Js.ToLower(a) in {"h2", "sub-heading"} && Js.ToLower(b) in {"h2", "sub-heading"}
    ensures Classify(a) == Classify(b) == H2
  {
  }

  // ---------------------------------------------------------------------------
  // Normalisation of `data`

  /**
   * An image gets height 9 and width 16 where they are falsy and keeps them
   * otherwise; its other fields are untouched, and both dimensions end truthy.
   */
  lemma ImageDefaults(d: BlockData)
    requires Classify(d.blockType) == Image
    ensures var n := Normalized(d);
      && n.height == (if d.height == None || d.height == Some(0) then Some(9) else d.height)
      && n.width == (if d.width == None || d.width == Some(0) then Some(16) else d.width)
      && n.blockType == d.blockType && n.content == d.content
      && !Js.FalsyNumber(n.height) && !Js.FalsyNumber(n.width)
  {
  }

  /**
   * A list's string content becomes its pieces on ' ': none of them holds a
   * space and joining them with ' ' gives back the string. Array content and
   * the other fields are untouched.
   */
  lemma ListSplit(d: BlockData)
    requires Classify(d.blockType) == Ol || Classify(d.blockType) == Ul
    ensures var n := Normalized(d);
      && n.blockType == d.blockType && n.height == d.height && n.width == d.width
      && n.content.Items?
      && (d.content.Items? ==> n == d)
      && (d.content.Str? ==>
            && Js.Join(n.content.items, ' ') == d.content.s
            && |n.content.items| >= 1
            && forall i :: 0 <= i < |n.content.items| ==> ' ' !in n.content.items[i])
  {
    if d.content.Str? {
      Js.JoinSplit(d.content.s, ' ');
    }
  }

  /** Blocks other than images and lists leave `data` as it was. */
  lemma OtherKindsUntouched(d: BlockData)
    requires Classify(d.blockType) !in {Image, Ol, Ul}
    ensures Normalized(d) == d
  {
  }

  /** Normalising twice is normalising once: a second render changes nothing. */
  lemma NormalizedIdempotent(d: BlockData)
    ensures Normalized(Normalized(d)) == Normalized(d)
  {
  }

  // ---------------------------------------------------------------------------
  // Rendering

  /** Rendering the updated record gives the same block as rendering the original. */
  lemma RenderedStable(d: BlockData, statePadding: Option<string>, aspectRatio: (Option<int>, Option<int>) -> string)
    ensures Rendered(Normalized(d), statePadding, aspectRatio) == Rendered(d, statePadding, aspectRatio)
  {
  }

  /** A list renders one item per element of its (normalised) content, in order. */
  lemma ListRendering(d: BlockData, statePadding: Option<string>, aspectRatio: (Option<int>, Option<int>) -> string)
    requires Classify(d.blockType) == Ol || Classify(d.blockType) == Ul
    ensures var b := Rendered(d, statePadding, aspectRatio);
      && (b.OrderedList? <==> Classify(d.blockType) == Ol)
      && (b.UnorderedList? <==> Classify(d.blockType) == Ul)
      && b.items == Normalized(d).content.items
  {
  }

  /**
   * An image pads with `state.paddingTop` when it is set, otherwise with the
   * ratio of the normalised height and width.
   */
  lemma ImagePadding(d: BlockData, statePadding: Option<string>, aspectRatio: (Option<int>, Option<int>) -> string)
    requires Classify(d.blockType) == Image
    ensures var b := Rendered(d, statePadding, aspectRatio);
      && b.ImageBlock? && b.source == d.content
      && (statePadding.Some? && statePadding.value != "" ==> b.paddingTop == statePadding.value)
      && (statePadding == None || statePadding == Some("") ==>
            b.paddingTop == aspectRatio(Normalized(d).height, Normalized(d).width))
  {
  }

  /**
   * The embed URL is the prefix, the content and the suffix. A string id can
   * be read back from it; array content is interpolated joined with ','.
   */
  lemma YoutubeSource(d: BlockData, statePadding: Option<string>, aspectRatio: (Option<int>, Option<int>) -> string)
    requires Classify(d.blockType) == Youtube
    ensures var b := Rendered(d, statePadding, aspectRatio);
      && b.YoutubeEmbed? && b.title == d.content
      && (d.content.Str? ==>
            && b.src == "https://www.youtube.com/embed/" + d.content.s + "?rel=0&amp"
            && b.src[|YoutubePrefix|..|b.src| - |YoutubeSuffix|] == d.content.s)
      && (d.content.Items? ==>
            b.src == "https://www.youtube.com/embed/" + Js.Join(d.content.items, ',') + "?rel=0&amp")
  {
  }

  /** An unrecognised type renders the "??" placeholder. */
  lemma FallbackRendering(d: BlockData, statePadding: Option<string>, aspectRatio: (Option<int>, Option<int>) -> string)
    requires Js.ToLower(d.blockType) !in Recognised
    ensures Rendered(d, statePadding, aspectRatio) == Placeholder("??")
    ensures Normalized(d) == d
  {
  }

  // ---------------------------------------------------------------------------
  // The mutable record and the component

  /** The `data` prop: a record the component updates in place. */
  class DataRecord {
    var blockType: string
    var content: Content
    var height: Option<int>
    var width: Option<int>

    constructor (blockType: string, content: Content, height: Option<int>, width: Option<int>)
      ensures Snapshot() == BlockData(blockType, content, height, width)
    {
      this.blockType := blockType;
      this.content := content;
      this.height := height;
      this.width := width;
    }

    function Snapshot(): BlockData
      reads this
    {
      BlockData(blockType, content, height, width)
    }
  }

  /** The post-data component: its `data` prop and its `paddingTop` state. */
  class PostDataComponent {
    const data: DataRecord
    var paddingTop: Option<string>

    constructor (data: DataRecord)
      ensures this.data == data && paddingTop == None
    {
      this.data := data;
      paddingTop := None;
    }

    /**
     * `getActualData()`: updates `data` in place and returns the block to
     * render; `aspectRatio` stands for the percentage string computed from a
     * height and a width.
     */
    method GetActualData(aspectRatio: (Option<int>, Option<int>) -> string) returns (block: Block)
      modifies data
      ensures data.Snapshot() == Normalized(old(data.Snapshot()))
      ensures block == Rendered(old(data.Snapshot()), paddingTop, aspectRatio)
    {
      match Classify(data.blockType) {
        case Image =>
          data.height := if Js.FalsyNumber(data.height) then Some(DefaultHeight) else data.height;
          data.width := if Js.FalsyNumber(data.width) then Some(DefaultWidth) else data.width;
          var ratio := aspectRatio(data.height, data.width);
          var padding := if !Js.FalsyString(paddingTop) then paddingTop.value else ratio;
          block := ImageBlock(data.content, padding);
        case Text =>
          block := TextBlock(data.content);
        case H1 =>
          block := Heading1(data.content);
        case H2 =>
          block := Heading2(data.content);
        case Youtube =>
          block := YoutubeEmbed(data.content, YoutubePrefix + ContentText(data.content) + YoutubeSuffix);
        case Ol =>
          if data.content.Str? {
            data.content := Items(Js.Split(data.content.s, ' '));
          }
          block := OrderedList(data.content.items);
        case Ul =>
          if data.content.Str? {
            data.content := Items(Js.Split(data.content.s, ' '));
          }
          block := UnorderedList(data.content.items);
        case Fallback =>
          block := Placeholder("??");
      }
    }
  }
}
