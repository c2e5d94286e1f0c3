# pptx2html: error catalogue and flag extraction

This project models the two pieces of the pptx2html repository that carry
behaviour of their own (the conversion entry point is a stub that writes
fixed files):

- the error catalogue of `src/pptx2html/exceptions.py`: the ten `ErrorCode`
  members, each a pair of a code (`E1xxx` input, `E2xxx` output, `E3xxx`
  parse/render pipeline, `W3xxx` warnings) and a message template; and the
  library error `Pptx2HtmlError`, which on construction keeps an explicit
  message, or fills the template's `{name}` fields from its context, or
  falls back to the raw template when a field cannot be filled; its string
  form `"<code> <message>"` and its four-field dictionary `to_dict`;
- `_posarg` of `noxfile.py`, which picks the value after the first
  occurrence of a flag in the session's positional arguments, or a default.

Python's `str.format(**context)` is modelled in its own module `StrFormat`
as a scanner (`Parse`) and a substitution (`Substitute`), with `Unparse` as
the scanner's proved inverse. Context values are modelled as the strings
they render to.

Files: `strformat.dfy` (module `StrFormat`), `exceptions.dfy` (module
`Exceptions`), `noxfile.dfy` (module `Noxfile`).

The error construction (`__post_init__`, which assigns `self.message` once)
is modelled as the pure function `NewError` returning an immutable record:
nothing updates an error after construction. The record's message is a
`string`, so "the message is never None after construction" holds by type.
Each catalogue template is written as its literal text (`Lead`) followed by
its one field (`Key`); `DefaultMessage` spells the pair back as template
text. None of the ten literal texts holds a brace, so the template text is
the literal text followed by `{key}`, exactly as the table writes it.

## Model

| member | source | states |
|---|---|---|
| `Exceptions.ErrorCode.Code` | src/pptx2html/exceptions.py:9-32 | every code is five characters: `E` or `W`, then four digits |
| `Exceptions.ErrorCode.Key` | src/pptx2html/exceptions.py:11-29 | the field each template names is a plain keyword field (not positional, no conversion, spec, attribute or index) |
| `Exceptions.ErrorCode.Lead` | src/pptx2html/exceptions.py:11-29 | the literal text of each template, before its field, holds no brace |
| `Exceptions.ErrorCode.Template` | src/pptx2html/exceptions.py:11-29 | each template is the member's literal text, one literal piece per character, followed by exactly one field, the member's key, and by nothing else |
| `Exceptions.ErrorCode.DefaultMessage` | src/pptx2html/exceptions.py:34-35 | the template text scans back into exactly the member's template pieces |
| `Exceptions.ErrorCode.Name` | src/pptx2html/exceptions.py:9-29 | every member has a non-empty Python name (distinctness in `MembersDistinct`) |
| `Exceptions.DefaultMessageSpelling` | src/pptx2html/exceptions.py:11-29 | every template text is the member's literal text followed by `{key}`, as the table writes it |
| `Exceptions.DefaultMessageFormat` | src/pptx2html/exceptions.py:53-54 | formatting a member's template text yields its literal text followed by the context's value for the key, and fails exactly when the key is missing |
| `Exceptions.GroupOf` | src/pptx2html/exceptions.py:10-29 | each member belongs to the group whose comment it is listed under, and its code starts with that group's prefix |
| `Exceptions.GroupPrefix` | src/pptx2html/exceptions.py:10-24 | the four group prefixes are a severity letter and a digit, and only the warning group's starts with `W` |
| `Exceptions.CodeFollowsGroup` | src/pptx2html/exceptions.py:10-29 | every code starts with its group's prefix (`E1`, `E2`, `E3`, `W3`), and two codes share a prefix exactly when they share a group |
| `Exceptions.MembersDistinct` | src/pptx2html/exceptions.py:9-35 | no two members share a code or a name |
| `Exceptions.SelectMessage` | src/pptx2html/exceptions.py:50-57 | an explicit message is kept unchanged; with none, the template's literal text followed by `context[key]` when the key is present; the raw template, with no partial substitution, when it is missing |
| `Exceptions.NewError` | src/pptx2html/exceptions.py:38-57 | construction keeps code, class and context, and the message is the one selected |
| `Exceptions.ToString` | src/pptx2html/exceptions.py:59-61 | the string form is the five-character code, one space, then the message |
| `Exceptions.ToStringInjective` | src/pptx2html/exceptions.py:59-61 | equal string forms come from equal codes and equal messages |
| `Exceptions.ToDict` | src/pptx2html/exceptions.py:63-69 | the dictionary has exactly the keys code, name, message, context, holding the code, the member name, the message and the context |
| `Exceptions.ToDictDeterminesError` | src/pptx2html/exceptions.py:63-69 | equal dictionaries come from errors with equal code, message and context |
| `Exceptions.TemplateFilledFromContext` | tests/test_exceptions.py:20-27 | a missing-file error with a path renders as `E1001`, a space, `Input file not found: ` and the path |
| `Exceptions.ExplicitMessageOverride` | tests/test_exceptions.py:30-32 | an explicit message is the suffix of the string form |
| `Exceptions.ToDictOfOutputDirFailure` | tests/test_exceptions.py:35-42 | `to_dict` of an output-directory failure reports `E2001`, `OUTPUT_DIR_CREATE_FAILED`, the filled message and the given path |
| `StrFormat.Parse` | src/pptx2html/exceptions.py:54 | the scanning stage of `format`: what it accepts holds only plain keyword fields and no more pieces than characters (it is inverted by `Unparse` in `ParseUnparse` and `UnparseParse`) |
| `StrFormat.Substitute` | src/pptx2html/exceptions.py:53-56 | the substitution stage of `format`: it succeeds exactly when every field has a context entry, so a missing key makes the whole call fail with no partial result |
| `StrFormat.Format` | src/pptx2html/exceptions.py:54 | `template.format(**context)`: the scanning stage then the substitution stage, failing when either fails; its properties are `FormatDefinedIff`, `FormatIgnoresExtraKeys`, `FormatPlainText` and `FormatOneField` |
| `StrFormat.CloseIndex` | src/pptx2html/exceptions.py:54 | the scanner finds the first closing brace of a field, or reports that there is none |
| `StrFormat.ParseUnparse` | src/pptx2html/exceptions.py:54 | every well-formed piece sequence spelled as template text scans back to itself |
| `StrFormat.UnparseParse` | src/pptx2html/exceptions.py:54 | every template the scanner accepts is spelled back exactly by its pieces, which hold only plain fields |
| `StrFormat.SubstituteAgrees` | src/pptx2html/exceptions.py:54 | contexts that agree on the template's fields give the same result |
| `StrFormat.FormatDefinedIff` | src/pptx2html/exceptions.py:53-56 | formatting raises exactly when the template does not scan or names a key the context lacks |
| `StrFormat.FormatIgnoresExtraKeys` | src/pptx2html/exceptions.py:54 | extra context keys never change a successful result |
| `StrFormat.FormatPlainText` | src/pptx2html/exceptions.py:54 | a template without braces formats to itself |
| `StrFormat.FormatOneField` | src/pptx2html/exceptions.py:54 | brace-free text followed by `{k}` formats to the text followed by `context[k]`, and fails when `k` is missing |
| `Noxfile.IndexOf` | noxfile.py:19 | the index is an occurrence of the flag and no earlier element is the flag |
| `Noxfile.PosArg` | noxfile.py:16-24 | the result has length 2 and starts with the flag; its value is the default when the flag is absent or last, else the element after the flag's first occurrence |
| `Noxfile.FirstOccurrenceWins` | noxfile.py:18-21 | arguments after the first flag and its value, later copies of the flag included, never change the result |
| `Noxfile.TrailingFlagUsesDefault` | noxfile.py:20-24 | a flag whose first occurrence is the last argument yields the default; the index error is swallowed |

## Left out

- `parse_pptx`, `_build_minimal_slide_html` and the embedded PNG constant of `src/pptx2html/api.py`: file-system I/O and calls into the external `htpy` tag library, with no parsing to model.
- `examples/runner.py`: argument parsing and printing.
- The `user_editable` and `user_wheel` sessions of `noxfile.py`: they install packages, build wheels and run subprocesses; only their helper `_posarg` is modelled.
- `src/pptx2html/reporting/report.py`: a plain record with no behaviour that nothing in the model consumes.
- Python's exception machinery (raising, catching by class) and `UnsupportedFeatureWarning`: the subclasses are modelled only as the tag `ErrorClass`, which nothing reads.
- Context values of types other than strings: the model takes each value as the string `format` renders it to, and the keys as strings.
- `StrFormat.Format`: Python scans a template lazily and raises at the first problem it meets, so the kind of exception can differ from the model's stage (`"{missing} }"` raises `KeyError` in Python, while `Parse` already fails); the model agrees with Python on success versus failure only, which is all the caller's `except Exception` observes.
- `StrFormat.Parse`: fields with a conversion (`!r`), a format spec (`:>10`), attribute or index access (`.x`, `[0]`), or a nested brace are treated as a failing field, so the error falls back to the raw template; Python would format some of these. No catalogue template uses them.
- `StrFormat.Parse`: a field name is positional when it is empty or made only of the ASCII digits `0`-`9`; Python also counts other Unicode decimal digits.
