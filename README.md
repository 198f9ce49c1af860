# geckodriver extension commands, in Dafny

A model of geckodriver's Firefox-specific WebDriver extension commands
(`geckodriver/src/command.rs`): the route table that maps an HTTP method and
path template to an extension route, the resolver that turns a route, its
path parameters and the JSON request body into a `GeckoExtensionCommand`,
`parameters_json`, which gives the optional JSON payload of a command, and
the payload types with their JSON decoding rules: the context, add-on
uninstall and XBL locator payloads, the print options with their per-field
defaults and range validators, and the hand-written add-on install decoder,
which accepts either a path or an inline base64 package and stages the latter
as `addon-<uuid>.xpi` in the temp directory.

Modules:

- `Basics`: `Option`, `Result` and `byte`.
- `Json`: JSON values, the decode errors, and the field rules serde's derived
  decoders apply.
- `Base64`: `base64::decode` with the standard alphabet and padding, and the
  encoder it inverts.
- `Files`: OS paths, `Path::to_str` and `Path::join`, and a `FileSystem`
  object on which `File::create` and `write` act. The pure snapshot
  `FsState` states what each step does.
- `Parameters` and `ParameterProperties`: the payload decoders and encoders,
  and what they promise.
- `AddonInstall`: `StageAddon` says what the install decoder returns and what
  the filesystem becomes. The method `DecodeAddonInstall` runs the same steps
  on a `FileSystem` and is proved to agree with it.
- `Routes`: the route table.
- `Commands` and `CommandProperties`: the resolver, as a function `Resolve`
  and as a method `Command` proved against it, and `parameters_json`.

The source ignores the byte count `write` returns. The model keeps that
behaviour: when the device takes fewer bytes than the package, the staged
file is truncated and the decode still succeeds. `StageAddon` states the
truncated contents. `StagedFileHoldsDecodedBytes` states when the file is
complete.

## Model

| member | source | states |
|---|---|---|
| Routes.ExtensionRoutes | geckodriver/src/command.rs:18-61 | the table has eight entries |
| Routes.TemplateTexts | geckodriver/src/command.rs:18-61 | the eight templates spell the source's path strings, in the source's order |
| Routes.OneEntryPerRoute | geckodriver/src/command.rs:18-73 | every extension route appears in the table, and no route appears twice |
| Routes.DistinctEndpoints | geckodriver/src/command.rs:18-61 | no two entries share both method and template string |
| Routes.TableTriples | geckodriver/src/command.rs:18-61 | the table, read as (method, template string, route) triples, is exactly the source's eight triples in the source's order |
| Routes.NoOverlap | geckodriver/src/command.rs:18-61 | for two entries with the same method, the templates differ in length or at a segment where both are literal |
| Routes.UnambiguousMatch | geckodriver/src/command.rs:18-61 | a request's method and path, each `{name}` matching any one segment, match at most one entry |
| Routes.GetRoutes | geckodriver/src/command.rs:18-61 | an entry uses GET exactly when its route is the context query or the full screenshot |
| Routes.ElementPlaceholders | geckodriver/src/command.rs:18-61 | the two XBL templates name `sessionId` then `elementId`; all others name only `sessionId` |
| Commands.Resolve | geckodriver/src/command.rs:78-121 | only the install route changes the filesystem; the command answers the route; GetContext and TakeFullScreenshot always succeed; an XBL route without `elementId` fails with InvalidArgument "Missing elementId parameter" before the body is read; otherwise the command wraps the decoded payload (with the element from the path), and a decode error comes back unchanged |
| Commands.Command | geckodriver/src/command.rs:78-121 | the result and the new filesystem are exactly what `Resolve` gives for the filesystem before the call |
| Commands.ParametersJson | geckodriver/src/command.rs:137-149 | a command has no payload exactly when it is GetContext, XblAnonymousChildren or TakeFullScreenshot |
| CommandProperties.ResolvePayloadRoundTrip | geckodriver/src/command.rs:78-149 | resolving the same route again with the payload a resolved command carries gives the same command and leaves the filesystem alone (a staged add-on comes back by path) |
| CommandProperties.AttributePayloadOmitsElement | geckodriver/src/command.rs:144 | the attribute lookup's payload holds only `name` and `value`; the element stays in the URL |
| CommandProperties.ResolveDefaultPrint | geckodriver/src/command.rs:117 | the print route with `{}` resolves to the default print options |
| Parameters.DecodeContextParameters | geckodriver/src/command.rs:221-231 | accepted exactly when `context` is "content" or "chrome"; the value carries that context |
| Parameters.DecodeUninstallParameters | geckodriver/src/command.rs:216-219 | accepted exactly when `id` is a string; the value carries it |
| Parameters.DecodeLocatorParameters | geckodriver/src/command.rs:233-237 | accepted exactly when `name` and `value` are strings; the value carries both |
| Parameters.DecodeAddonShape | geckodriver/src/command.rs:163-188 | accepted exactly when the body has the inline shape (`addon`, optional `temporary`, no other key) or the path shape; each shape gives its own fields; any failure is "no variant matched" |
| Parameters.ShapesExclusive | geckodriver/src/command.rs:163-182 | no body has both shapes, so the order in which the untagged enum tries them never picks between two matches |
| Parameters.AddonShapeRejects | geckodriver/src/command.rs:356-360 | `null`, `{}`, `{"temporary": true}`, any body with both `path` and `addon`, and any body with neither are refused |
| Parameters.NonNegative | geckodriver/src/command.rs:326-335 | a length is accepted exactly when it is not negative, and the error names the value |
| Parameters.PrintScale | geckodriver/src/command.rs:337-346 | a scale is accepted exactly when 0.1 <= v <= 2, and the error names the value |
| Parameters.DefaultsValid | geckodriver/src/command.rs:257-324 | the default print options pass every validator |
| Parameters.DecodePrintPage | geckodriver/src/command.rs:284-300 | a decoded page has no negative length |
| Parameters.DecodePrintMargins | geckodriver/src/command.rs:302-324 | decoded margins have no negative length |
| Parameters.DecodeStrings | geckodriver/src/command.rs:253 | a list of page ranges is accepted exactly when every element is a string, and it reads back as those strings |
| Parameters.DecodePrintParameters | geckodriver/src/command.rs:244-269 | decoded print options are always in range |
| ParameterProperties.ContextRoundTrip | geckodriver/src/command.rs:228-231 | decoding the JSON a context payload serialises to gives it back |
| ParameterProperties.UninstallRoundTrip | geckodriver/src/command.rs:216-219 | decoding the serialised uninstall payload gives it back |
| ParameterProperties.LocatorRoundTrip | geckodriver/src/command.rs:233-237 | decoding the serialised locator gives it back |
| ParameterProperties.InstallRoundTrip | geckodriver/src/command.rs:152-188 | serialised install parameters decode through the path shape to the same path and `temporary` |
| ParameterProperties.DecodeStringsExactly | geckodriver/src/command.rs:253 | a list decodes to given strings exactly when it is those strings as JSON |
| ParameterProperties.PrintSound | geckodriver/src/command.rs:244-324 | every decoded print field is what the body says or, when absent, its default, and the value is in range |
| ParameterProperties.PrintComplete | geckodriver/src/command.rs:244-324 | every in-range value is decoded from any body that spells it field by field |
| ParameterProperties.PrintExactly | geckodriver/src/command.rs:244-324 | a print body decodes to a value exactly when it spells that value, with defaults for absent fields, and the value is in range |
| ParameterProperties.PrintDefaults | geckodriver/src/command.rs:508-511 | `{}` decodes to the default print options |
| ParameterProperties.PrintScaleRange | geckodriver/src/command.rs:337-346 | `{"scale": v}` gives the defaults with that scale when 0.1 <= v <= 2, and otherwise the out-of-range error naming v |
| ParameterProperties.PrintPartialPage | geckodriver/src/command.rs:284-300 | a page naming only its width keeps the default height |
| ParameterProperties.PrintNegativeMargin | geckodriver/src/command.rs:302-335 | a negative margin on any of the four sides refuses the whole body, naming the value |
| ParameterProperties.PrintNegativePage | geckodriver/src/command.rs:284-300 | a negative page width or height refuses the whole body, naming the value |
| ParameterProperties.PrintExample | geckodriver/src/command.rs:514-531 | the print test's body decodes to the value the test expects |
| ParameterProperties.PrintIgnoresUnknownKeys | geckodriver/src/command.rs:244-246 | a key the print options do not declare changes nothing |
| ParameterProperties.PrintRoundTrip | geckodriver/src/command.rs:147 | serialised print options decode back to themselves exactly when they are in range |
| ParameterProperties.ScaleTestAsWritten | geckodriver/src/command.rs:535-537 | the scale test's body is refused as install parameters whatever the scale is |
| ParameterProperties.ScaleTestIntended | geckodriver/src/command.rs:535-537 | the same body decoded as print options is refused for its scale of 3, and accepted with a scale of 1 |
| Json.OptionalBoolRoundTrip | geckodriver/src/command.rs:155 | an `Option<bool>` written as `null` or a boolean reads back as itself |
| Base64.DecodeEncode | geckodriver/src/command.rs:190 | decoding the encoding of any byte string gives it back |
| Base64.EncodeDecode | geckodriver/src/command.rs:190 | a string that decodes is the encoding of what it decodes to, so each package has one accepted spelling |
| Base64.DecodeHello | geckodriver/src/command.rs:394-401 | "aGVsbG8=" decodes to the bytes of "hello" |
| Files.ToStr | geckodriver/src/command.rs:200-203 | a path converts to a string exactly when it is valid Unicode throughout, and the string spells the path |
| Files.ToStrFromStr | geckodriver/src/command.rs:200-203 | a path built from a string converts back to that string |
| Files.JoinToStr | geckodriver/src/command.rs:192-194 | joining a relative file name to the temp directory gives a Unicode path exactly when the directory is one |
| Files.FileSystem.Create | geckodriver/src/command.rs:195 | creating a file truncates it to empty when the directory is writable, and fails otherwise |
| Files.FileSystem.Write | geckodriver/src/command.rs:196-198 | one write appends as many bytes as the device takes and reports how many; it fails only when it can take none |
| AddonInstall.StageAddon | geckodriver/src/command.rs:184-212 | a path body gives its own path and never touches the filesystem; an inline body with bad base64 fails; otherwise it succeeds exactly when the directory is writable, the device takes at least one byte (or the package is empty) and the temp directory is Unicode; the result names the staged file, and that file holds as much of the package as the device took |
| AddonInstall.DecodeAddonInstall | geckodriver/src/command.rs:184-212 | the result and the new filesystem are exactly what `StageAddon` gives for the filesystem before the call |
| AddonInstall.StagedFileHoldsDecodedBytes | geckodriver/src/command.rs:189-198 | when the device has room for the whole package, the staged file holds exactly the decoded bytes |
| AddonInstall.StagingKeepsOtherFiles | geckodriver/src/command.rs:192-198 | with a fresh file name, staging adds at most that one file and leaves every other file as it was |
| AddonInstall.InstallHello | geckodriver/src/command.rs:393-402 | the inline test's body succeeds with `temporary` true, and the staged file holds "hello" |
| AddonInstall.InstallHelloThenRead | geckodriver/src/command.rs:393-402 | running the inline test's body on a fresh filesystem and reading the named file gives "hello" |

## Left out

- Real I/O: `env::temp_dir()` and `Uuid::new_v4()` are the parameters `tempDir` and `id`. The filesystem is a model: a map from paths to contents, one writable flag and a count of free bytes. Permissions, other processes and file handles are not modelled.
- Error messages: serde's and the I/O errors' texts are not reproduced. Each failure is a `DecodeError` constructor.
- When a body has several faults, the model reports the first in the struct's declared field order. serde reports the first in the body's key order.
- JSON numbers are exact reals, not `f64`. Rounding, NaN and infinities are not modelled, and integers are read as numbers the way serde reads them into `f64`.
- serde also accepts a JSON array as the fields of a struct, and an externally tagged object for an enum variant. The model accepts only the object and string forms.
- Base64.Decode: refuses input that lacks its trailing `=` padding or has non-zero unused bits in the last character. Some versions of the `base64` crate accept such input, so the model may refuse a package the program accepts.
- `LogOptions` and `CHROME_ELEMENT_KEY` are declared in the file but take part in no command here.
- `WebDriverCommand::Extension` wrapping and the conversion of a decode error into a WebDriver error status belong to the `webdriver` crate. They are modelled only as the `Error` constructor `Decode`.
- `hyper::Method` has only the two values the table uses.
- Reading a whole request path and matching it against the templates is done by the `webdriver` crate. It is not part of this model. `Routes.Matches` states the matching rule `UnambiguousMatch` assumes: the path has as many segments as the template, each literal segment is equal, and each `{name}` takes any one segment.

## Findings

| source | as written | input that shows it | evidently intended | confidence | as-written member | corrected member |
|---|---|---|---|---|---|---|
| geckodriver/src/command.rs:535-537 | `test_json_gecko_scale_invalid` decodes its body as `AddonInstallParameters`, which refuses any body naming neither `addon` nor `path` | `{"scale": 3}` is refused, and `{"scale": 1}` is refused just the same, so the test passes whatever the scale rule is | decode the body as `PrintParameters`, refused for a scale outside 0.1-2 | high (not executed) | ParameterProperties.ScaleTestAsWritten | ParameterProperties.ScaleTestIntended |
