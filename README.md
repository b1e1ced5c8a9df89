# nextest runner errors in Dafny

This project models the failure taxonomy of the nextest test runner
(`nextest-runner/src/errors.rs`). Each stage of the runner that can fail
returns one of these error types. The stages are configuration and profile
selection, parsing the small string-valued settings and the partition
specification, reading the build's JSON messages, listing the tests of a
binary, writing the test list, writing run events and JUnit reports, and
resolving the target runner.

Every Rust error type becomes a Dafny `datatype` with two member functions:

- `Message()` is the type's `Display` output. It is a total function from
  the error value to a `string`, built from the same literal pieces as the
  Rust `write!` calls.
- `Source()` is the type's `std::error::Error::source`. It returns
  `Option<Cause>`, where `Cause` tags the underlying error by its type.

`ProfileNotFound::new` becomes `ProfileNotFound.New`. It keeps the requested
name and sorts the known profile names.

The modules are:

- `Options`: the `Option` datatype.
- `Foreign`: stand-ins for the library errors the runner wraps (`std::io`,
  `config`, `guppy`, `serde_json`, `quick_junit`, `toml`, `target_spec`).
  Each one keeps only the text its `Display` would render.
- `Text`: Rust's `join` on a list of strings, plus predicates and lemmas
  that say where a string sits inside another.
- `Ordering`: Rust's `Ord` on `String`. It is lexicographic by character,
  and a proper prefix comes first. UTF-8 byte order and code-point order
  agree, so comparing Dafny `char`s matches comparing Rust's bytes. The
  module also holds the insertion sort that stands for `sort_unstable`.
- `Unrecognized`: the "unrecognized value ... (known values: ...)" message
  shared by the three string-valued settings, with the lemmas that place the
  rejected input and every known value in it.
- `Errors`: the error types, their messages and causes, and the lemmas that
  connect them.

Most message contracts are stated against a partner definition:

- `Spells2` to `Spells5` in `Text` say that a text is given pieces in order
  and nothing else; each comes with a lemma showing it holds of the
  concatenation only. The target-runner and test-list messages are stated
  this way.
- A decoder reads back what a message encodes: `ReadConfigParseMessage` and
  `ReadWriteEventMessage`. Two lemmas per decoder give both directions.
- Exact positions (`OccursAt`) show where each field sits in a message, for
  example where every profile and every known value appears. `SeparatedFrom`
  places the `, ` between neighbours and a length clause closes the list;
  `FramedListExact` shows that together they fix the text.
- The sort is checked against the order `Le`: the result is `Sorted` and a
  permutation, and `SortedUnique` shows it is the only such result.

The string-valued settings print their known values in the order the
`variants()` list gives them. The source does not sort that list, so the
model does not sort it either. Only the known profile names are sorted.

## Model

| member | source | states |
|---|---|---|
| Errors.ConfigParseError.Message | nextest-runner/src/errors.rs:31-40 | the message starts with the fixed lead, names the config file, and the file can be read back from it exactly |
| Errors.ConfigParseError.Source | nextest-runner/src/errors.rs:42-46 | the cause is always present and is the config library's error |
| Errors.ReadConfigParseMessageExact | nextest-runner/src/errors.rs:31-40 | a text the decoder accepts is exactly the message for the file it returns, with any config error |
| Errors.ProfileNotFound.New | nextest-runner/src/errors.rs:55-66 | keeps the requested name; the stored known profiles are sorted ascending, have the input's length and are a permutation of the names passed in |
| Errors.ProfileNotFound.Message | nextest-runner/src/errors.rs:69-78 | the message starts `profile '`, then the requested name, then `' not found (known profiles: `, then every known profile at its offset with `, ` between neighbours, and ends with `)`; its length leaves room for nothing else |
| Errors.ProfileNotFound.Source | nextest-runner/src/errors.rs:80 | there is no underlying cause |
| Errors.ProfileNotFoundMessageExact | nextest-runner/src/errors.rs:69-78 | any text meeting the clauses of `ProfileNotFound.Message` is that message, so the clauses fix the text exactly |
| Errors.NewNamesEveryKnownProfile | nextest-runner/src/errors.rs:56-77 | the message of a freshly built error contains the requested name and every name passed in |
| Errors.NewListsProfilesAscending | nextest-runner/src/errors.rs:61-75 | in a freshly built error's message, earlier-listed profiles come first in string order and sit strictly before later ones |
| Errors.NewIgnoresInputOrder | nextest-runner/src/errors.rs:60-61 | two name lists with the same elements give the same error, so the sort's instability cannot be observed |
| Unrecognized.UnrecognizedValueNamesInput | nextest-runner/src/errors.rs:96-104 | an "unrecognized value" message starts with its lead, then the rejected input, then `\n(known values: `, and ends with `)` |
| Unrecognized.UnrecognizedValueListsKnown | nextest-runner/src/errors.rs:96-104 | an "unrecognized value" message shows every known value at its offset, with `, ` between neighbours, and its length leaves room only for the closing `)` after the list |
| Unrecognized.UnrecognizedValueExact | nextest-runner/src/errors.rs:96-104 | a text with the lead, the input, the known-values marker, the listed and separated values and the closing `)` at those places, and of that length, is the message |
| Errors.TestOutputDisplayParseError.Message | nextest-runner/src/errors.rs:96-105 | the message names the test-output-display setting, then the rejected input, then `\n(known values: `, then exactly the known values in order with `, ` between them, then `)` |
| Errors.TestOutputDisplayParseError.Source | nextest-runner/src/errors.rs:107 | there is no underlying cause |
| Errors.StatusLevelParseError.Message | nextest-runner/src/errors.rs:123-132 | the message names the status-level setting, then the rejected input, then `\n(known values: `, then exactly the known values in order with `, ` between them, then `)` |
| Errors.StatusLevelParseError.Source | nextest-runner/src/errors.rs:134 | there is no underlying cause |
| Errors.RunIgnoredParseError.Message | nextest-runner/src/errors.rs:150-159 | the message names the run-ignored setting, then the rejected input, then `\n(known values: `, then exactly the known values in order with `, ` between them, then `)` |
| Errors.RunIgnoredParseError.Source | nextest-runner/src/errors.rs:161 | there is no underlying cause |
| Errors.PartitionerBuilderParseError.Message | nextest-runner/src/errors.rs:183-196 | the parser's message always ends the text; with no expected format it is the whole text; with a format, the text names the format after the fixed lead, then `":\n`, then the message |
| Errors.PartitionerBuilderParseError.Source | nextest-runner/src/errors.rs:198 | there is no underlying cause |
| Errors.FromMessagesError.Message | nextest-runner/src/errors.rs:211-222 | each variant has its own fixed text, so the text tells the two variants apart |
| Errors.FromMessagesError.Source | nextest-runner/src/errors.rs:224-231 | a cause is always present: the I/O error or the package-graph error the variant wraps |
| Errors.ParseTestListError.Message | nextest-runner/src/errors.rs:275-289 | a failed command is the text `running '`, the command, `' failed` and nothing else; a parse failure is its message, `\nfull output:\n` and the complete captured output, nothing else |
| Errors.ParseTestListError.Source | nextest-runner/src/errors.rs:291-298 | the cause is absent exactly for a parse failure; a failed command keeps its I/O error |
| Errors.WriteTestListError.Message | nextest-runner/src/errors.rs:311-322 | each variant has its own fixed text, so the text tells the two variants apart |
| Errors.WriteTestListError.Source | nextest-runner/src/errors.rs:324-331 | a cause is always present: the I/O error or the JSON error the variant wraps |
| Errors.WriteEventError.Message | nextest-runner/src/errors.rs:359-373 | the variant, and the file for `Fs` and `Junit`, can be read back from the text; the `Fs` and `Junit` messages end with the file path |
| Errors.WriteEventError.Source | nextest-runner/src/errors.rs:375-383 | a cause is always present and is the error each variant wraps |
| Errors.ReadWriteEventMessageExact | nextest-runner/src/errors.rs:359-373 | a text the decoder accepts is exactly the message of every error it summarises |
| Errors.JunitError.Message | nextest-runner/src/errors.rs:397-401 | renders as the empty text; the detail is only in the cause |
| Errors.JunitError.Source | nextest-runner/src/errors.rs:403-407 | the cause is always the JUnit library's error |
| Errors.JunitWriteCauseChain | nextest-runner/src/errors.rs:380 | a JUnit write failure has the JunitError as its cause, which renders as empty and whose own cause is the library error |
| Errors.TargetRunnerError.Message | nextest-runner/src/errors.rs:459-495 | for each variant, the message is its fixed lead, then the variable, the key and the value, the path or the triple where the variant has one, then the fixed tail or `': ` and the cause's text, in that order and nothing else |
| Errors.TargetRunnerError.Source | nextest-runner/src/errors.rs:497-509 | the cause is absent exactly for `InvalidEnvironmentVar`, `BinaryNotSpecified` and `NonUtf8Path`; the other six variants keep the error they wrap |
| Errors.TargetRunnerMessageEndsWithCause | nextest-runner/src/errors.rs:459-509 | wherever a target-runner error has a cause, its message ends with the cause's text |
| Ordering.Sort | nextest-runner/src/errors.rs:61 | the result is sorted in Rust's string order and is a permutation of the input |
| Ordering.Insert | nextest-runner/src/errors.rs:61 | inserting into a sorted sequence keeps it sorted and adds exactly one copy of the element |
| Ordering.SortedUnique | nextest-runner/src/errors.rs:61 | two sorted sequences with the same elements are equal |
| Ordering.LeTotal | nextest-runner/src/errors.rs:61 | any two strings are comparable |
| Ordering.LeTransitive | nextest-runner/src/errors.rs:61 | the string order is transitive |
| Ordering.LeAntisymmetric | nextest-runner/src/errors.rs:61 | strings that are each at most the other are equal |
| Ordering.LeReflexive | nextest-runner/src/errors.rs:61 | every string is at most itself |
| Text.JoinContainsPart | nextest-runner/src/errors.rs:75 | every element of a joined list occurs in the result at its offset |
| Text.JoinedListFramed | nextest-runner/src/errors.rs:75 | a joined list placed between any prefix and suffix has every element at the prefix length plus its offset |
| Text.JoinedSeparatedFramed | nextest-runner/src/errors.rs:75 | a joined list placed between any prefix and suffix has a separator after every element but the last, at the prefix length plus its offset |
| Text.JoinedFromExact | nextest-runner/src/errors.rs:75 | a text that shows every element and every separator at its offset holds exactly the joined list there |
| Text.FramedListExact | nextest-runner/src/errors.rs:71-76 | a text that starts with the lead, shows the subject and the marker after it, then the listed and separated elements, ends with the tail and has no room for more, is the concatenation of those pieces |
| Text.ListedContains | nextest-runner/src/errors.rs:75 | a text that lists the elements at their offsets contains each of them |
| Text.JoinKeepsOrder | nextest-runner/src/errors.rs:75 | the separator sits right after each element but the last, in the joined text |
| Text.JoinOffsetStep | nextest-runner/src/errors.rs:75 | the next element starts right after an element and one separator |
| Text.JoinOffsetIncreasing | nextest-runner/src/errors.rs:75 | a later element starts after an earlier one and its separator end |
| Text.JoinLength | nextest-runner/src/errors.rs:75 | the joined text is as long as the elements plus one separator per gap, and empty for no elements |
| Text.Spells2Exact | nextest-runner/src/errors.rs:462-463 | a text that starts with one piece, ends with the other and is as long as both is their concatenation |
| Text.Spells3Exact | nextest-runner/src/errors.rs:465-466 | a text with three pieces at their places and of their total length is their concatenation |
| Text.Spells4Exact | nextest-runner/src/errors.rs:478-479 | a text with four pieces at their places and of their total length is their concatenation |
| Text.Spells5Exact | nextest-runner/src/errors.rs:468-473 | a text with five pieces at their places and of their total length is their concatenation |

## Left out

- The `Display` text and inner structure of the wrapped library errors (`std::io::Error`, `config::ConfigError`, `guppy::Error`, `serde_json::Error`, `quick_junit::Error`, `toml::de::Error`, `target_spec` errors). Their source is not part of this model. Each becomes an opaque value that carries only its rendered text, and the model does not follow a cause chain beyond it.
- `TestOutputDisplay::variants()`, `StatusLevel::variants()` and `RunIgnored::variants()`. They are defined in files that are not part of this model. The known-values list is therefore a parameter of each `Message`.
- `path.display()` on a non-UTF-8 `PathBuf` (`NonUtf8Path`). Its lossy, OS-specific conversion is not modelled; the variant holds the already rendered path text.
- `Errors.ProfileNotFound.New`: the sort is an insertion sort, not the pattern-defeating quicksort behind `sort_unstable`. Only its result is modelled, and `Ordering.SortedUnique` shows that the result is the same.
- The `new`, `command` and `parse_line` constructors, and the `Into`, `Cow` and `Utf8PathBuf` conversions. Each only builds a record, so the datatype constructors stand for them.
- Writer failures inside `fmt` (`fmt::Result`). Rendering is modelled as returning a `string`.
- `#[non_exhaustive]`, `Debug` and `Clone` derivations. They do not change what a value holds or renders.
