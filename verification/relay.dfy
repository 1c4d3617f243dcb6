/**
 The part of the poster relay shared by both deployment targets: the table of style
 templates, the prompt each template renders, and the combined input check that runs
 before the image provider is contacted.

 Both handlers declare a `TEMPLATES` object with the same three keys and the same three
 prompt texts (they differ only in quoting and indentation), so the table is defined once
 here.
 */
module Relay {
  import opened Js
  import Gemini

  /** The three styles the table offers. */
  datatype Style = ElegantStudio | WarmBakery | VibrantMarket

  /** The own keys of the `TEMPLATES` object. */
  const TemplateKeys: set<string> := {"Elegant Studio", "Warm Bakery", "Vibrant Market"}

  /**
   The property names every plain JavaScript object inherits from `Object.prototype`.
   Indexing `TEMPLATES` with one of them yields a truthy value (a function, or the
   prototype itself for `__proto__`) that has no `prompt` member.
   */
  const InheritedKeys: set<string> := {
    "constructor", "__defineGetter__", "__defineSetter__", "hasOwnProperty",
    "__lookupGetter__", "__lookupSetter__", "isPrototypeOf", "propertyIsEnumerable",
    "toString", "valueOf", "__proto__", "toLocaleString"
  }

  /** The key under which a style is stored. */
  function KeyOf(s: Style): (k: string)
    ensures k in TemplateKeys
  {
    match s
    case ElegantStudio => "Elegant Studio"
    case WarmBakery => "Warm Bakery"
    case VibrantMarket => "Vibrant Market"
  }

  /** What `TEMPLATES[name]` evaluates to. */
  datatype Entry =
    | Template(style: Style)   // an own key: an object with a `prompt` builder
    | Inherited                // a truthy inherited member without a `prompt` builder
    | Undefined                // no such property: falsy

  /** How a template name is looked up. */
  datatype Lookup =
    | PropertyAccess   // `TEMPLATES[name]`: own keys and inherited members
    | OwnKeysOnly      // only the three keys the table declares

  /** `TEMPLATES[name]` under JavaScript property access. */
  function Index(name: string): (e: Entry)
    ensures e.Template? <==> name in TemplateKeys
    ensures e.Template? ==> KeyOf(e.style) == name
    ensures e.Inherited? <==> name in InheritedKeys
  {
    if name == "Elegant Studio" then Template(ElegantStudio)
    else if name == "Warm Bakery" then Template(WarmBakery)
    else if name == "Vibrant Market" then Template(VibrantMarket)
    else if name in InheritedKeys then Inherited
    else Undefined
  }

  /** Looks a name up in the table by the given discipline. */
  function Resolve(how: Lookup, name: string): (e: Entry)
    ensures e.Template? <==> name in TemplateKeys
    ensures e.Template? ==> KeyOf(e.style) == name
    ensures e.Inherited? <==> how == PropertyAccess && name in InheritedKeys
  {
    match how
    case PropertyAccess => Index(name)
    case OwnKeysOnly => if Index(name).Inherited? then Undefined else Index(name)
  }

  /** The table holds exactly the three style keys, each naming its own style. */
  lemma TableKeys(name: string)
    ensures Index(name).Template? <==> name == "Elegant Studio" || name == "Warm Bakery" || name == "Vibrant Market"
    ensures forall s: Style :: Index(KeyOf(s)) == Template(s)
  {
    forall s: Style
      ensures Index(KeyOf(s)) == Template(s)
    {
      match s
      case ElegantStudio =>
      case WarmBakery =>
      case VibrantMarket =>
    }
  }

  // ---------------------------------------------------------------------------------------
  // Prompts
  // ---------------------------------------------------------------------------------------

  /** The sentence every template embeds the product description in. */
  function ProductSentence(desc: string): string
  {
    ProductLead + desc + "."
  }

  const ProductLead := "The product is: "

  /** The style instructions that precede the product sentence. */
  function Opening(s: Style): string
  {
    match s
    case ElegantStudio =>
      "Generate a professional, high-end studio product advertisement poster. Use a clean, minimalist white or gray background, subtle lighting, and elegant, modern Poppins-style typography. "
    case WarmBakery =>
      "Design a cozy, rustic, and warm bakery advertisement poster. Use soft, golden lighting, wood textures, and a handwritten-style font. "
    case VibrantMarket =>
      "Create an energetic and colorful open-air market poster. Use bright, contrasting colors (like Sky Blue/Yellow) and a bold, African-inspired geometric pattern border. "
  }

  /** The instructions that follow the product sentence. */
  function Closing(s: Style): string
  {
    match s
    case ElegantStudio =>
      " Include a short, punchy marketing caption on the image. Output only the image."
    case WarmBakery =>
      " Include a caption like 'Freshly Baked' or 'Taste the Warmth'. Output only the image."
    case VibrantMarket =>
      " The image should convey freshness and local hustle. Output only the image."
  }

  /** True when `part` occurs in `text` starting at offset `at`. */
  predicate OccursAt(part: string, text: string, at: nat)
  {
    at + |part| <= |text| && text[at..at + |part|] == part
  }

  /** The text a template renders: its opening, the product sentence, its closing. */
  function Frame(open: string, close: string, desc: string): (p: string)
    ensures OccursAt(ProductSentence(desc), p, |open|)
    ensures OccursAt(desc, p, |open| + |ProductLead|)
    ensures |p| == |open| + |ProductSentence(desc)| + |close|
  {
    var p := open + ProductSentence(desc) + close;
    assert p[|open|..|open| + |ProductSentence(desc)|] == ProductSentence(desc);
    assert p[|open| + |ProductLead|..|open| + |ProductLead| + |desc|] == desc;
    p
  }

  /** Reads the description back out of a text framed by `open` and `close`. */
  function Unframe(open: string, close: string, p: string): Option<string>
  {
    var head, tail := open + ProductLead, "." + close;
    if |head| + |tail| <= |p| && p[..|head|] == head && p[|p| - |tail|..] == tail
    then Some(p[|head|..|p| - |tail|])
    else None
  }

  lemma {:induction false} UnframeFrame(open: string, close: string, desc: string)
    ensures Unframe(open, close, Frame(open, close, desc)) == Some(desc)
  {
    var head, tail := open + ProductLead, "." + close;
    var p := head + desc + tail;
    assert Frame(open, close, desc) == p;
    assert p[..|head|] == head;
    assert p[|p| - |tail|..] == tail;
    assert p[|head|..|p| - |tail|] == desc;
  }

  lemma {:induction false} FrameUnframe(open: string, close: string, p: string, desc: string)
    requires Unframe(open, close, p) == Some(desc)
    ensures Frame(open, close, desc) == p
  {
    var head, tail := open + ProductLead, "." + close;
    assert p == p[..|head|] + p[|head|..|p| - |tail|] + p[|p| - |tail|..];
    assert Frame(open, close, desc) == head + desc + tail;
  }

  /**
   The prompt the template of style `s` renders for a product description: the
   description appears verbatim, inside the product sentence, right after the style's
   opening instructions.
   */
  function Prompt(s: Style, desc: string): (p: string)
    ensures OccursAt(ProductSentence(desc), p, |Opening(s)|)
    ensures OccursAt(desc, p, |Opening(s)| + |ProductLead|)
  {
    Frame(Opening(s), Closing(s), desc)
  }

  /**
   Recovers the product description from a prompt of style `s`, or `None` when the text
   is not framed by that style's instructions.
   */
  function DescriptionOf(s: Style, p: string): Option<string>
  {
    Unframe(Opening(s), Closing(s), p)
  }

  /** Rendering a prompt loses nothing: the description is read back unchanged. */
  lemma {:induction false} PromptRoundTrip(s: Style, desc: string)
    ensures DescriptionOf(s, Prompt(s, desc)) == Some(desc)
  {
    UnframeFrame(Opening(s), Closing(s), desc);
  }

  /** Every text the reader accepts is the rendering of the description it reads. */
  lemma {:induction false} DescriptionOfInverse(s: Style, p: string, desc: string)
    requires DescriptionOf(s, p) == Some(desc)
    ensures Prompt(s, desc) == p
  {
    FrameUnframe(Opening(s), Closing(s), p, desc);
  }

  /** Two descriptions yield the same prompt of one style only if they are equal. */
  lemma {:induction false} PromptInjective(s: Style, d1: string, d2: string)
    requires Prompt(s, d1) == Prompt(s, d2)
    ensures d1 == d2
  {
    PromptRoundTrip(s, d1);
    PromptRoundTrip(s, d2);
  }

  // ---------------------------------------------------------------------------------------
  // Input validation
  // ---------------------------------------------------------------------------------------

  /** The three fields destructured from the request payload. */
  datatype Fields = Fields(base64Image: Option<string>, description: Option<string>, templateName: Option<string>)

  /** The inputs that passed the combined check, with the table entry they selected. */
  datatype Checked = Checked(image: string, description: string, entry: Entry)

  /** True when image, description and template name are all present and non-empty. */
  predicate Complete(f: Fields)
  {
    Truthy(f.base64Image) && Truthy(f.description) && Truthy(f.templateName)
  }

  /**
   The combined check `!base64Image || !description || !templateName || !TEMPLATES[templateName]`:
   it fails when any field is missing or empty or when the lookup yields nothing, and
   otherwise passes the fields on unchanged with the entry found.
   */
  function Validate(how: Lookup, f: Fields): (r: Option<Checked>)
    ensures r.Some? <==> Complete(f) && !Resolve(how, f.templateName.value).Undefined?
    ensures r.Some? ==> && r.value.image == f.base64Image.value
                        && r.value.description == f.description.value
                        && r.value.entry == Resolve(how, f.templateName.value)
                        && r.value.image != "" && r.value.description != ""
  {
    if !Truthy(f.base64Image) || !Truthy(f.description) || !Truthy(f.templateName) then None
    else
      var e := Resolve(how, f.templateName.value);
      if e.Undefined? then None
      else Some(Checked(f.base64Image.value, f.description.value, e))
  }

  /**
   Under property access the check admits exactly the complete inputs whose template name
   is one of the three keys or an inherited member name; under own-key lookup it admits
   exactly the complete inputs naming one of the three keys.
   */
  lemma ValidateAdmits(f: Fields)
    ensures Validate(PropertyAccess, f).Some? <==>
              Complete(f) && f.templateName.value in TemplateKeys + InheritedKeys
    ensures Validate(OwnKeysOnly, f).Some? <==>
              Complete(f) && f.templateName.value in TemplateKeys
    ensures Validate(OwnKeysOnly, f).Some? ==> Validate(OwnKeysOnly, f).value.entry.Template?
  {
  }

  /** True when the fields name one of the three keys and none of them is missing or empty. */
  predicate Accepted(f: Fields)
  {
    Complete(f) && f.templateName.value in TemplateKeys
  }

  /** The request an accepted input is sent as: its image unchanged, then its prompt. */
  function RequestFor(f: Fields): (r: Gemini.Request)
    requires Accepted(f)
    ensures Gemini.ReadRequest(r) == Some((f.base64Image.value, Prompt(Index(f.templateName.value).style, f.description.value)))
    ensures DescriptionOf(Index(f.templateName.value).style, r.contents[1].text.value) == Some(f.description.value)
  {
    var style := Index(f.templateName.value).style;
    PromptRoundTrip(style, f.description.value);
    Gemini.BuildRequest(f.base64Image.value, Prompt(style, f.description.value))
  }
}
