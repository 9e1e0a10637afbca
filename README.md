# rDock filter-expression and configuration core, modelled in Dafny

This project models four sequential pieces of rDock:

- **The filter-expression token reader** (`RbtStringTokenIter`). The iterator is a cursor over a stream of whitespace-delimited raw tokens. It shares that stream and a variable context with its copies. `translate` classifies one raw token in a fixed order:
  1. an empty token fails;
  2. the eight command words `+ - * / if log exp and` become commands;
  3. a token containing `SCORE`, `SITE` or `LIG` becomes a live variable, bound to 0.0;
  4. a token that `strtod` reads completely becomes a literal, bound under its own text;
  5. anything else fails with "Can't read".

  `strtod` is modelled by the grammar it accepts: leading white space, a sign, decimal and hexadecimal floating constants, `inf`/`infinity` and `nan(...)`. The value is kept as an exact real.
- **The sectioned parameter store** (`RbtParameterFileSource`). It holds the always-present unnamed global section, the vector of named sections, the name-to-index map and the current-section cursor. The cursor scopes the parameter count, the parameter list and qualified `<section>::<name>` parameter names.
- **The CHARMm atom-type tables** (`RbtCharmmDataSource`). Three tables are built from a masses-file type list, with the last entry winning on duplicate keys. Two fixed tables hold implicit hydrogens and formal charges. Lookups either default to 0 or fail with a missing-parameter error. The hybridisation state comes from a prioritised search for bracketed markers in the type's comment.
- **The bi-molecular transform update rule** (`RbtBaseBiMolTransform::Update`). It compares the workspace's models 0, 1 and 2 onwards with the receptor, ligand and solvent it holds. It takes over whichever changed and records the setup hooks it runs, in order, in a ghost trace.

Files: `wrappers.dfy` (Option, Result), `text.dfy` (substring search), `strtod.dfy`, `token_iter.dfy`, `parameter_file_source.dfy`, `charmm_data_source.dfy`, `bimol_transform.dfy`.

## Model

| member | source | states |
|---|---|---|
| `Text.Contains` | src/lib/RbtStringTokenIter.cxx:86-88 | `find(pat) != npos` holds exactly when `pat` occurs at some offset of the string; the search is case-sensitive |
| `Strtod.SkipSpace` | src/lib/RbtStringTokenIter.cxx:97 | strtod skips exactly the leading C-locale white space and stops at the first other character |
| `Strtod.ParseDouble` | src/lib/RbtStringTokenIter.cxx:95-98 | strtod plus the test that it consumed the whole token: every string it accepts holds a numeral, i.e. a decimal digit, or the i or n that begins `inf` or `nan`; `Strtod.DigitRunValue` and `Strtod.NatTextRoundTrip` give the value it reads |
| `Strtod.DigitRunValue` | src/lib/RbtStringTokenIter.cxx:97-98 | a non-empty run of decimal digits is accepted, and its value is the number the digits spell |
| `Strtod.NatTextRoundTrip` | src/lib/RbtStringTokenIter.cxx:97-98 | writing any natural in decimal and parsing it gives back that natural |
| `Strtod.StrtodAsWritten` | src/lib/RbtStringTokenIter.cxx:95-98 | the code's test `!errno && !*error` on `strtod(s.c_str())`. On a non-empty token without NUL it agrees with the full-token parse `ParseDouble`. A token is cut at its first NUL, and one that starts with NUL reads as 0.0 |
| `Strtod.NulTokenReadAsZero` | src/lib/RbtStringTokenIter.cxx:95-101 | every token that starts with NUL passes the test as written and reads as 0.0; the intended parse rejects every such token |
| `Strtod.EmbeddedNulTruncates` | src/lib/RbtStringTokenIter.cxx:95-101 | a digit run followed by a NUL passes the test as written, whatever follows the NUL, and reads as the digit run (`1`, NUL, `x` reads as 1); the intended parse rejects it |
| `TokenIter.CommandWord` | src/lib/RbtStringTokenIter.cxx:68-85 | a token names a command exactly when it equals that command's word; each of the eight words names exactly one command |
| `TokenIter.Classify` | src/lib/RbtStringTokenIter.cxx:64-105 | classification fails exactly for the empty token ("Missing token") and for a token that is neither a command, nor a live name, nor a number ("Can't read"); a command leaves the context unchanged; a variable or literal token names the token itself, adds or rebinds only that name, and keeps every other binding |
| `TokenIter.CommandWordsWin` | src/lib/RbtStringTokenIter.cxx:68-85 | each command word becomes its command before any variable or number check, so `-` is always SUB; the context is unchanged |
| `TokenIter.LiveNameResetToZero` | src/lib/RbtStringTokenIter.cxx:86-91 | a non-command token holding a marker becomes a variable, and the name is bound to 0.0 even when it was already bound |
| `TokenIter.LiteralBoundToItsValue` | src/lib/RbtStringTokenIter.cxx:93-101 | a token that is no command and no live name, and that the numeric parse accepts, becomes a variable bound under its own text to the parsed value |
| `TokenIter.WithoutNumeralUnreadable` | src/lib/RbtStringTokenIter.cxx:97-104 | a non-empty token with no numeral, which is neither a command nor a live name, fails with "Can't read" and binds nothing |
| `TokenIter.NoUpperCaseNoLiveName` | src/lib/RbtStringTokenIter.cxx:86-88 | marker search is case-sensitive: a token without upper-case letters is never a live name |
| `TokenIter.LowerCaseMarkerIsUnreadable` | src/lib/RbtStringTokenIter.cxx:86-104 | `score.x` is neither a variable nor a number, so it fails with "Can't read" |
| `TokenIter.QuestionMarksUnreadable` | src/lib/RbtStringTokenIter.cxx:104 | `??` fails with "Can't read" |
| `TokenIter.NaturalLiteralRoundTrip` | src/lib/RbtStringTokenIter.cxx:95-101 | the decimal text of any natural becomes a literal bound under that text to that natural's value |
| `TokenIter.Context.Assign` | src/lib/RbtStringTokenIter.cxx:90 | binding a name replaces or creates that one binding, and nothing else |
| `TokenIter.TokenStream.Extract` | src/lib/RbtStringTokenIter.cxx:47 | extraction yields the next token and advances by one; at the end of the stream, the target string and the position are left as they were |
| `TokenIter.StringTokenIter.constructor` | src/lib/RbtStringTokenIter.cxx:26-31 | the iterator holds the given stream and context, and has read the first token; if the stream is empty, its raw token stays empty |
| `TokenIter.StringTokenIter.Copy` | src/lib/RbtStringTokenIter.cxx:33-38 | the copy constructor copies the raw token and current token, and shares the stream and context |
| `TokenIter.StringTokenIter.Next` | src/lib/RbtStringTokenIter.cxx:45-48 | Next advances the shared stream by exactly one token; at the end of the stream, the raw token is left unchanged |
| `TokenIter.StringTokenIter.Current` | src/lib/RbtStringTokenIter.cxx:50-54 | Current translates the same raw token without advancing the stream. On success it stores the token and applies Classify's effect on the context. On failure it changes neither the current token nor the context |
| `TokenIter.StringTokenIter.CopyFrom` | src/lib/RbtStringTokenIter.cxx:56-62 | afterwards all four fields equal those of the source iterator |
| `TokenIter.StringTokenIter.Translate` | src/lib/RbtStringTokenIter.cxx:64-105 | the result and the new context are exactly those of Classify on the old context; a failure leaves the context unchanged |
| `ParameterFiles.NamesDistinct` | include/RbtParameterFileSource.h:94-97 | when the index map and the section vector agree, no two named sections share a name |
| `ParameterFiles.SectionCount` | include/RbtParameterFileSource.h:95-96 | there are as many named sections as names in the index map |
| `ParameterFiles.FullParameterName` | include/RbtParameterFileSource.h:79-82 | the result always holds a `::` qualifier; an already-qualified name is returned unchanged; otherwise the result is `<section>::<name>` |
| `ParameterFiles.FullParameterNameIdempotent` | include/RbtParameterFileSource.h:79-82 | qualifying a name twice gives the same result as qualifying it once, whatever section is current the second time |
| `ParameterFiles.ParameterFileSource.constructor` | include/RbtParameterFileSource.h:94-97 | a new store has only the empty global section, named "", and that section is current |
| `ParameterFiles.ParameterFileSource.GetCurrentSectionName` | include/RbtParameterFileSource.h:64 | the name is "" exactly when the global section is current; otherwise the index maps the name back to the current section |
| `ParameterFiles.ParameterFileSource.SetCurrentSection` | include/RbtParameterFileSource.h:55-65 | with no argument or "", the global section becomes current; a known name makes that section current, and its name is then reported; an unknown name is an error and leaves the cursor unchanged |
| `ParameterFiles.ParameterFileSource.GetNumSections` | include/RbtParameterFileSource.h:62 | the count of named sections equals the number of indexed names |
| `ParameterFiles.ParameterFileSource.GetSectionList` | include/RbtParameterFileSource.h:63 | the list holds every named section's name exactly once, and nothing else |
| `ParameterFiles.ParameterFileSource.GetNumParameters` | include/RbtParameterFileSource.h:41-42 | the count is that of the current section's parameters only |
| `ParameterFiles.ParameterFileSource.GetParameterList` | include/RbtParameterFileSource.h:45-47 | the list holds exactly the current section's parameter names, each once; its length is GetNumParameters |
| `ParameterFiles.ParameterFileSource.GetFullParameterName` | include/RbtParameterFileSource.h:79-82 | an unqualified name is prefixed with the current section's name and `::`; a qualified name is returned unchanged |
| `ParameterFiles.ParameterFileSource.StoreParameter` | include/RbtParameterFileSource.h:91-97 | a stored entry goes to the global section or to its own named section; a new name appends a section and indexes it. Store invariant kept: every index is in range, the section there carries the name, and the cursor points at the global section or an existing one. No other section changes, no section is renamed, and the cursor stays |
| `ParameterFiles.SameKeyInTwoSections` | include/RbtParameterFileSource.h:55-61 | one parameter name stored in two sections keeps each section's own value; the parameter count is per section |
| `CharmmData.ConvertCommentStringToHybridState` | src/lib/RbtCharmmDataSource.cxx:130-148 | the result's marker occurs in the comment, and no higher-priority marker does; the result is UNDEFINED when no marker occurs |
| `CharmmData.MarkerRoundTrip` | src/lib/RbtCharmmDataSource.cxx:133-145 | each bracketed marker alone reads back as its own state; in particular `(RBT::SP2)` is not read as SP |
| `CharmmData.BuildDomain` | src/lib/RbtCharmmDataSource.cxx:37-43 | a key is in a table built from the type list exactly when some entry of the list has that key |
| `CharmmData.BuildLastWins` | src/lib/RbtCharmmDataSource.cxx:37-43 | the value stored for a key comes from the last entry of the list with that key |
| `CharmmData.EveryListedTypeHasData` | src/lib/RbtCharmmDataSource.cxx:37-43 | every type name in the list has an atomic number and a hybridisation state |
| `CharmmData.CharmmDataSource.constructor` | src/lib/RbtCharmmDataSource.cxx:29-63 | the loop fills the type-number, atomic-number and hybridisation tables from the list in order; the implicit-hydrogen and formal-charge tables get their fixed contents |
| `CharmmData.CharmmDataSource.AtomTypeString` | src/lib/RbtCharmmDataSource.cxx:74-86 | this lookup succeeds exactly for a type number in the list, giving the last such entry's name. Otherwise it fails with a missing-parameter error, and it never modifies the tables |
| `CharmmData.CharmmDataSource.ImplicitHydrogens` | src/lib/RbtCharmmDataSource.cxx:88-95 | CH1E, C5RE, C6RE and SH1E give 1; CH2E and NH2E give 2; CH3E gives 3; every other name gives 0; it never fails |
| `CharmmData.CharmmDataSource.AtomicNumber` | src/lib/RbtCharmmDataSource.cxx:97-104 | this lookup succeeds exactly for a type name in the list, with the atomic number of the last such entry's element. Otherwise it fails with a missing-parameter error |
| `CharmmData.CharmmDataSource.FormalCharge` | src/lib/RbtCharmmDataSource.cxx:106-114 | the result is negative exactly for OC and positive exactly for HC and NC, within -1..1; every other name gives 0, and it never fails |
| `CharmmData.CharmmDataSource.HybridState` | src/lib/RbtCharmmDataSource.cxx:117-124 | this lookup succeeds exactly for a type name in the list, with the state read from the last such entry's comment. Otherwise it fails with a missing-parameter error |
| `BiMolTransform.SolventModels` | src/lib/RbtBaseBiMolTransform.cxx:80-83 | the solvent models are the workspace's models from index 2 on, and none when there are fewer than three |
| `BiMolTransform.UpdateRule` | src/lib/RbtBaseBiMolTransform.cxx:51-90 | every update runs SetupTransform last; the hooks run at most once each, in the order receptor, ligand, solvent, transform |
| `BiMolTransform.HooksMatchChanges` | src/lib/RbtBaseBiMolTransform.cxx:56-87 | SetupReceptor runs and the receptor is replaced exactly when there is a model 0 that differs from it. The ligand follows the same rule with model 1. SetupSolvent runs and the solvent list is replaced exactly when the list's size changes |
| `BiMolTransform.NeverCleared` | src/lib/RbtBaseBiMolTransform.cxx:56-67 | receptor and ligand are kept when the workspace has too few models |
| `BiMolTransform.SameSizeSolventIgnored` | src/lib/RbtBaseBiMolTransform.cxx:77-87 | a same-size solvent list with other models is neither taken over nor set up |
| `BiMolTransform.SecondUpdateOnlyTransform` | src/lib/RbtBaseBiMolTransform.cxx:51-90 | a second update from an unchanged workspace keeps every stored model and runs only SetupTransform |
| `BiMolTransform.BaseBiMolTransform.constructor` | src/lib/RbtBaseBiMolTransform.cxx:24-31 | a new transform holds no receptor, no ligand and no solvent, and has run no hook |
| `BiMolTransform.BaseBiMolTransform.GetReceptor` | src/lib/RbtBaseBiMolTransform.cxx:45 | returns the stored receptor and changes nothing |
| `BiMolTransform.BaseBiMolTransform.GetLigand` | src/lib/RbtBaseBiMolTransform.cxx:46 | returns the stored ligand and changes nothing |
| `BiMolTransform.BaseBiMolTransform.GetSolvent` | src/lib/RbtBaseBiMolTransform.cxx:47 | returns the stored solvent list and changes nothing |
| `BiMolTransform.BaseBiMolTransform.Update` | src/lib/RbtBaseBiMolTransform.cxx:51-90 | a notification from another subject changes no field and runs no hook. One from the workspace sets the stored models to UpdateRule's result and appends its hooks to the trace |

## Findings

| source | as written | input that shows it | evidently intended | confidence | as-written member | corrected member |
|---|---|---|---|---|---|---|
| src/lib/RbtStringTokenIter.cxx:95-101 | `strtod` on `s.c_str()`, then accept when `!errno && !*error` | a token made of one NUL character: strtod converts nothing, leaves its end position on the terminating NUL and returns 0.0, so the token is bound as the literal 0.0; likewise `1` followed by a NUL and more characters is read as 1 | accept a token only when the whole token is a number | medium; not executed | `Strtod.NulTokenReadAsZero` | `Strtod.ParseDouble` |

The as-written test is `Strtod.StrtodAsWritten`. `Strtod.NulTokenReadAsZero` and `Strtod.EmbeddedNulTruncates` show it accepting NUL-bearing tokens. On tokens without NUL it agrees with the corrected parse. The classifier (`TokenIter.Classify`, `TokenIter.StringTokenIter.Translate`) uses the corrected parse `Strtod.ParseDouble`, which accepts a token only when the whole token is a number. Its contract states that every token it accepts holds a numeral.

## Left out

- `Strtod.ParseDouble`: values are exact reals. Rounding to a 53-bit `double` is not modelled. Neither is the `errno == ERANGE` rejection of literals that overflow (`1e999`) or underflow (`1e-400`) the `double` range; the model accepts both. Negative zero is not distinguished, and the radix character is that of the C locale.
- Stream extraction is modelled as a sequence of whitespace-free tokens with a read position. `istream` buffering, fail and eof bits are I/O and not modelled. Extraction at the end of the stream is modelled as leaving the target string unchanged.
- The context (`RbtContext`) is modelled as a name-to-value map that `Assign` writes. `GetVble` and the variable objects it hands out are not modelled; a variable token carries the name. Construction of `RbtToken`/`RbtCommands` and the expression evaluator are not part of this model.
- `Next` takes a context argument that its body ignores; the model's `Next` has no argument.
- `RbtParameterFileSource::Parse`, its file-name constructors, `GetTitle`, `GetVersion`, `GetParameterValue`, `GetParameterValueAsString`, `isParameterPresent`, `getParameter`, `getSectionByName` and `ClearParamsCache` are left out. Their bodies are not part of this model, and they read files or coerce `RbtVariant` values. Stored values are kept as text. `StoreParameter` stands for the way parsed entries are filed into sections.
- `SetCurrentSection`: its body is not part of this model, and its header comment documents only the default "". The model assumes that an unknown non-empty name is an error that leaves the cursor unchanged.
- The cursor is modelled as "global or named section i". The C++ cursor is an address inside a `std::vector<Section>`, which could dangle if the vector grew later; that is not modelled.
- `ParameterFiles.ParameterFileSource.GetParameterList` does not state the order of the names (`std::map` key order).
- `ParameterFiles.ParameterFileSource.GetSectionList` does not state the order of the names.
- The `RbtCharmmDataSource` constructor reads the masses file and the element file. The model takes the type list as a parameter. The element file's atomic numbers are a total function from element name to atomic number, so an unknown element is not modelled. The mass field of a type-list entry is not used and not modelled.
- The bodies of the `SetupReceptor`/`SetupLigand`/`SetupSolvent`/`SetupTransform` hooks are not modelled; they are recorded only as trace events. An override that changes the stored models is not modelled either. The workspace's observer wiring is reduced to a subject identity and the workspace's model list, both passed to `Update`.
- Object counters, `_DEBUG` console output, reference counting of shared handles and the text of error messages are not modelled.
