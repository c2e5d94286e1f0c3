/** The library's error catalogue and its error record: every error carries a
    machine-readable code from a fixed table and a human-readable message,
    filled from the code's template and a context of details. */
module Exceptions {
  import opened StrFormat

  /** The fixed table of error codes. Each member stands for a pair
      (code, message template); its Python member name is `Name()`. */
  datatype ErrorCode =
    // Input errors (E1xxx)
    | FileNotFound | InvalidPptx | InputReadFailed
    // Output errors (E2xxx)
    | OutputDirCreateFailed | OutputWriteFailed
    // Parse/render pipeline (E3xxx)
    | XmlParseFailed | ThemeResolveFailed | FontExtractFailed
    // Warnings (W3xxx)
    | UnsupportedFeature | RasterizedFallback
  {
    /** The first element of the member's pair: a letter for the severity,
        then four digits. */
    function Code(): (r: string)
      ensures |r| == 5 && (r[0] == 'E' || r[0] == 'W')
      ensures forall i :: 1 <= i < 5 ==> IsDigit(r[i])
    {
      match this
      case FileNotFound => "E1001"
      case InvalidPptx => "E1002"
      case InputReadFailed => "E1003"
      case OutputDirCreateFailed => "E2001"
      case OutputWriteFailed => "E2002"
      case XmlParseFailed => "E3001"
      case ThemeResolveFailed => "E3002"
      case FontExtractFailed => "E3003"
      case UnsupportedFeature => "W3001"
      case RasterizedFallback => "W3002"
    }

    /** The member's message template as scanned pieces: its literal text,
        character by character, followed by exactly one replacement field. */
    function Template(): (ps: seq<Piece>)
      ensures TextThenField(ps, Lead(), Key())
      ensures WellFormed(ps) && Fields(ps) == {Key()}
    {
      var p, k := Lead(), Key();
      OneFieldPieces(p, k);
      Lits(p) + [Field(k)]
    }

    /** The second element of the member's pair: the template text, which
        scans back into exactly the template's pieces. */
    function DefaultMessage(): (t: string)
      ensures Parse(t) == Some(Template())
    {
      ParseUnparse(Template());
      Unparse(Template())
    }

    /** The literal text of the template, before its field; none of the ten
        holds a brace, so none needs escaping. */
    function Lead(): (p: string)
      ensures BraceFree(p)
    {
      match this
      case FileNotFound => FileNotFoundLead()
      case InvalidPptx => InvalidPptxLead()
      case InputReadFailed => InputReadFailedLead()
      case OutputDirCreateFailed => OutputDirCreateFailedLead()
      case OutputWriteFailed => OutputWriteFailedLead()
      case XmlParseFailed => XmlParseFailedLead()
      case ThemeResolveFailed => ThemeResolveFailedLead()
      case FontExtractFailed => FontExtractFailedLead()
      case UnsupportedFeature => UnsupportedFeatureLead()
      case RasterizedFallback => RasterizedFallbackLead()
    }

    /** The context key the template's one field names. */
    function Key(): (k: string)
      ensures |k| > 0 && !IsDigit(k[0])
      ensures Plain(k)
    {
      match this
      case FileNotFound | InvalidPptx | InputReadFailed
        | OutputDirCreateFailed | OutputWriteFailed => "path"
      case XmlParseFailed => "location"
      case ThemeResolveFailed => "resource"
      case FontExtractFailed => "font_name"
      case UnsupportedFeature => "feature"
      case RasterizedFallback => "element"
    }

    /** The member's Python name, as `to_dict` reports it. */
    function Name(): (n: string)
      ensures n != []
    {
      match this
      case FileNotFound => "FILE_NOT_FOUND"
      case InvalidPptx => "INVALID_PPTX"
      case InputReadFailed => "INPUT_READ_FAILED"
      case OutputDirCreateFailed => "OUTPUT_DIR_CREATE_FAILED"
      case OutputWriteFailed => "OUTPUT_WRITE_FAILED"
      case XmlParseFailed => "XML_PARSE_FAILED"
      case ThemeResolveFailed => "THEME_RESOLVE_FAILED"
      case FontExtractFailed => "FONT_EXTRACT_FAILED"
      case UnsupportedFeature => "UNSUPPORTED_FEATURE"
      case RasterizedFallback => "RASTERIZED_FALLBACK"
    }
  }

  // The literal texts of the ten templates, one function each so that the
  // absence of braces is checked for each text on its own.

  function FileNotFoundLead(): (p: string) ensures BraceFree(p) {
    "Input file not found: "
  }

  function InvalidPptxLead(): (p: string) ensures BraceFree(p) {
    "Input file is not a valid .pptx: "
  }

  function InputReadFailedLead(): (p: string) ensures BraceFree(p) {
    "Failed to read input file: "
  }

  function OutputDirCreateFailedLead(): (p: string) ensures BraceFree(p) {
    "Could not create output directory: "
  }

  function OutputWriteFailedLead(): (p: string) ensures BraceFree(p) {
    "Failed writing file: "
  }

  function XmlParseFailedLead(): (p: string) ensures BraceFree(p) {
    "Invalid or unexpected XML content at "
  }

  function ThemeResolveFailedLead(): (p: string) ensures BraceFree(p) {
    "Failed to resolve theme resource: "
  }

  function FontExtractFailedLead(): (p: string) ensures BraceFree(p) {
    "Failed to extract embedded font: "
  }

  function UnsupportedFeatureLead(): (p: string) ensures BraceFree(p) {
    var front, back := "Unsupported feature ", "rendered as placeholder: ";
    BraceFreeConcat(front, back);
    front + back
  }

  function RasterizedFallbackLead(): (p: string) ensures BraceFree(p) {
    "Element rasterized to image: "
  }

  /** The template text is the literal text followed by `{key}`, exactly as
      the table spells it. */
  lemma DefaultMessageSpelling(c: ErrorCode)
    ensures c.DefaultMessage() == c.Lead() + "{" + c.Key() + "}"
  {
    UnparseOneField(c.Lead(), c.Key());
  }

  /** Formatting a member's template text fills its one field from the
      context, or fails when the context lacks the key. */
  lemma DefaultMessageFormat(c: ErrorCode, context: map<string, string>)
    ensures Format(c.DefaultMessage(), context)
         == if c.Key() in context then Some(c.Lead() + context[c.Key()]) else None
  {
    SubstituteOneField(c.Lead(), c.Key(), context);
  }

  /** The four groups the table is laid out in. */
  datatype Group = Input | Output | Pipeline | Warning

  /** The group a member is listed under; its code starts with the group's
      prefix. */
  function GroupOf(c: ErrorCode): (g: Group)
    ensures c.Code()[..2] == GroupPrefix(g)
  {
    match c
    case FileNotFound | InvalidPptx | InputReadFailed => Input
    case OutputDirCreateFailed | OutputWriteFailed => Output
    case XmlParseFailed | ThemeResolveFailed | FontExtractFailed => Pipeline
    case UnsupportedFeature | RasterizedFallback => Warning
  }

  /** The first two characters every code of a group starts with. */
  function GroupPrefix(g: Group): (r: string)
    ensures |r| == 2 && (r[0] == 'E' || r[0] == 'W') && IsDigit(r[1])
    ensures r[0] == 'W' <==> g == Warning
  {
    match g
    case Input => "E1"
    case Output => "E2"
    case Pipeline => "E3"
    case Warning => "W3"
  }

  /** Every code follows its group's numbering scheme, and the groups are
      told apart by the code alone. */
  lemma CodeFollowsGroup(c: ErrorCode, d: ErrorCode)
    ensures c.Code()[..2] == GroupPrefix(GroupOf(c))
    ensures GroupOf(c) == GroupOf(d) <==> c.Code()[..2] == d.Code()[..2]
  {
  }

  /** No two members share a code or a name: the ten members
      are ten distinct enum values with no aliases. */
  lemma MembersDistinct(c: ErrorCode, d: ErrorCode)
    ensures c.Code() == d.Code() ==> c == d
    ensures c.Name() == d.Name() ==> c == d
  {
  }

  /** The Python class an error was raised as; the subclasses add nothing
      but their category. */
  datatype ErrorClass = Base | InputFile | OutputWrite | ParseFailure | RenderFailure

  /** A constructed error. After construction the message is always present. */
  datatype Error = Error(
    cls: ErrorClass,
    code: ErrorCode,
    message: string,
    context: map<string, string>)

  /** The message construction picks: an explicit message as given; else the
      template formatted from the context; else, when formatting raises, the
      raw template. */
  function SelectMessage(code: ErrorCode, message: Option<string>, context: map<string, string>): (m: string)
    ensures message.Some? ==> m == message.value
    ensures message.None? && code.Key() in context ==> m == code.Lead() + context[code.Key()]
    ensures message.None? && code.Key() !in context ==> m == code.DefaultMessage()
  {
    match message
    case Some(explicit) => explicit
    case None =>
      var template := code.DefaultMessage();
      DefaultMessageFormat(code, context);
      match Format(template, context)
      case Some(filled) => filled
      case None => template
  }

  /** Constructs an error of class `cls`: the record keeps the code, the
      class and the context, and its message is selected as above. */
  function NewError(cls: ErrorClass, code: ErrorCode, message: Option<string>, context: map<string, string>): (e: Error)
    ensures e.cls == cls && e.code == code && e.context == context
    ensures e.message == SelectMessage(code, message, context)
  {
    Error(cls, code, SelectMessage(code, message, context), context)
  }

  /** The string form: the code, one space, the message. */
  function ToString(e: Error): (s: string)
    ensures |s| == |e.message| + 6
    ensures s[..5] == e.code.Code() && s[5] == ' ' && s[6..] == e.message
  {
    e.code.Code() + " " + e.message
  }

  /** The string form tells the code and the message apart: equal strings
      come from equal codes and equal messages. */
  lemma ToStringInjective(e1: Error, e2: Error)
    requires ToString(e1) == ToString(e2)
    ensures e1.code == e2.code && e1.message == e2.message
  {
  }

  /** A value in the dictionary `to_dict` returns. */
  datatype Entry = Text(text: string) | Mapping(entries: map<string, string>)

  /** The four-field dictionary view of an error. */
  function ToDict(e: Error): (d: map<string, Entry>)
    ensures d.Keys == {"code", "name", "message", "context"}
    ensures d["code"] == Text(e.code.Code()) && d["name"] == Text(e.code.Name())
    ensures d["message"] == Text(e.message) && d["context"] == Mapping(e.context)
  {
    map["code" := Text(e.code.Code()), "name" := Text(e.code.Name()),
        "message" := Text(e.message), "context" := Mapping(e.context)]
  }

  /** The dictionary keeps everything but the class: two errors with the same
      dictionary agree on code, message and context. */
  lemma ToDictDeterminesError(e1: Error, e2: Error)
    requires ToDict(e1) == ToDict(e2)
    ensures e1.code == e2.code && e1.message == e2.message && e1.context == e2.context
  {
  }

  // ---------------------------------------------------------------------
  // The scenarios of the repository's tests.
  // ---------------------------------------------------------------------

  /** A missing input file with its path in the context renders as
      "E1001", a space, then "Input file not found: " followed by the path. */
  lemma TemplateFilledFromContext(path: string)
    ensures var s := ToString(NewError(InputFile, FileNotFound, None, map["path" := path]));
            s[..5] == "E1001" && s[5] == ' ' && s[6..] == "Input file not found: " + path
  {
  }

  /** An explicit message is kept as given and ends the string form. */
  lemma ExplicitMessageOverride(m: string)
    ensures var s := ToString(NewError(OutputWrite, OutputWriteFailed, Some(m), map[]));
            s == "E2002 " + m && s[|s| - |m|..] == m
  {
  }

  /** `to_dict` of an output-directory failure reports E2001, its member
      name, the filled message and the context it was given. */
  lemma ToDictOfOutputDirFailure(path: string)
    ensures var d := ToDict(NewError(OutputWrite, OutputDirCreateFailed, None, map["path" := path]));
            && d["code"] == Text("E2001")
            && d["name"] == Text("OUTPUT_DIR_CREATE_FAILED")
            && d["context"].entries["path"] == path
            && d["message"] == Text("Could not create output directory: " + path)
  {
  }
}
