# Resource-link parser, modelled in Dafny

OpenProject's API v3 links resources by path, for example `/api/v3/work_packages/42`.
`API::Utilities::ResourceLinkParser` reads such a link back into its version, its
namespace and its id. Clients send these links in request bodies. The parser knows
two link shapes, each given as a URI Template:

- the generic shape `/api/v{version}/{namespace}/{+id}`;
- the string-object shape `/api/v{version}/string_objects?value={+value}`. Its
  namespace is always `string_objects` and its id is the word-character prefix
  of the value.

`parse_id` checks the parsed link against the version and namespace the caller
expects. It returns the id or raises one of two errors:

- `ArgumentError` when no link is given;
- `InvalidResourceLink`, carrying the property, the expected link formats and
  the link itself.

The project has these modules:

- `Wrappers`: the `Option` type, which stands for Ruby's `nil`-or-value.
- `UriChars`: the RFC 3986 character classes and the runs of them that a URI
  Template variable captures (RFC 6570, sections 3.2.2 and 3.2.3). Also the
  string helpers, including Ruby's `\w*` as `WordPrefix`.
- `LinkTemplates`: the two templates as anchored recognizers that return the
  variables they capture, with a `None` capture for an empty variable.
- `ResourceLinkParser`: `parse`, `parse_resource`, `parse_string_object`,
  `matches_expectation?`, `make_expected_link` and `parse_id`.
- `ResourceLinkProperties`: lemmas over all links, and worked example links.

How the templates match. A template match is anchored at both ends.
`{version}` and `{namespace}` capture only unreserved characters and `%HH`
triplets, so neither can hold a '/' or a '?'. `{+id}` and `{+value}` also admit
the reserved characters and take the rest of the link.

Two behaviours of the code are worth stating up front:

- `make_expected_link` writes `"v#{version}" || ':apiVersion'`. The
  interpolated string is always truthy, so the `:apiVersion` fallback is never
  used, and a missing version renders as a bare `v` (`/api/v/:resource/:id`).
  `UnsetVersionHint` proves it.
- `parse_string_object` has no `nil` check. A string-object link without a
  version parses, with its version unset.
- A version expectation given as a list is written into the hint as Ruby's
  `Array#inspect` writes it: `"v#{["3"]}"` gives `v["3"]`, where the scalar
  `"3"` gives `v3`. `ListVersionHintNeverParses` proves that such a hint
  never parses.

`parse` is a function of the link alone. Parsing twice therefore gives the same
result; this needs no lemma.

## Model

| member | source | states |
|---|---|---|
| UriChars.IndexOf | lib/api/utilities/resource_link_parser.rb:91 | The position of the first occurrence of the character, or the length when it is absent; no earlier position holds it. This is where a `{version}` or `{namespace}` capture ends. |
| UriChars.SplitAtFirst | lib/api/utilities/resource_link_parser.rb:91 | It splits exactly when the character occurs. The first part is free of it, and the parts joined around it give back the input. |
| UriChars.StripPrefix | lib/api/utilities/resource_link_parser.rb:91 | It succeeds exactly when the text starts with the literal prefix of a template, and the prefix followed by the result is the input. |
| UriChars.WordPrefix | lib/api/utilities/resource_link_parser.rb:86 | The match of `\w*`: a prefix of the value, made of word characters only, and followed by a non-word character or by nothing. |
| UriChars.WordPrefixKeepsWordRun | lib/api/utilities/resource_link_parser.rb:86 | A leading run of word characters is always kept whole in the id. |
| UriChars.SimpleRunExcludes | lib/api/utilities/resource_link_parser.rb:91 | A simple `{var}` capture never contains a character that is neither unreserved nor '%'. In particular it never contains '/' or '?'. |
| UriChars.AdmittedCharsFormRun | lib/api/utilities/resource_link_parser.rb:91 | A text made only of admitted characters is a valid capture. |
| LinkTemplates.Capture | lib/api/utilities/resource_link_parser.rb:70-72 | An empty capture is reported as unset (`nil`), and any other capture as its text. |
| LinkTemplates.ExtractResource | lib/api/utilities/resource_link_parser.rb:91 | A match of `/api/v{version}/{namespace}/{+id}`: the link is the template filled with the captured texts, each capture is a run of its expansion, and no capture is set but empty. |
| LinkTemplates.ExtractResourceComplete | lib/api/utilities/resource_link_parser.rb:91 | Every filling of the generic template is matched, and the match captures exactly the texts that were filled in. |
| LinkTemplates.ExtractStringObject | lib/api/utilities/resource_link_parser.rb:95 | A match of `/api/v{version}/string_objects?value={+value}`: the link is the template filled with the captured texts, which are runs of their expansions, and no capture is set but empty. |
| LinkTemplates.ExtractStringObjectComplete | lib/api/utilities/resource_link_parser.rb:95 | Every filling of the string-object template is matched, and the match captures exactly the texts that were filled in. |
| LinkTemplates.QueryHoldsQuestionMark | lib/api/utilities/resource_link_parser.rb:95 | In a string-object link, the text after the version up to the next '/' contains the '?' of the query. |
| LinkTemplates.QueryIsNoNamespace | lib/api/utilities/resource_link_parser.rb:91-95 | In a string-object link, the text after the version up to the next '/' is never a valid `{namespace}` capture. |
| LinkTemplates.StringObjectLinkIsNoResourceLink | lib/api/utilities/resource_link_parser.rb:91-95 | No filling of the string-object template matches the generic template. |
| LinkTemplates.ShapesDisjoint | lib/api/utilities/resource_link_parser.rb:91-95 | No link matches both templates. |
| LinkTemplates.NoShapeWithBadVersionStart | lib/api/utilities/resource_link_parser.rb:91-95 | A link whose version slot opens with a character that `{version}` cannot capture matches neither template. |
| ResourceLinkParser.ParseStringObject | lib/api/utilities/resource_link_parser.rb:78-88 | On a match, the namespace is `string_objects`, the version is unset or a non-empty simple run, and the link is the string-object template filled with that version and some reserved-run value whose `\w*` prefix is the id. No `nil` check rejects an unset version. |
| ResourceLinkParser.ParseResource | lib/api/utilities/resource_link_parser.rb:64-76 | A result has all three parts set and non-empty, and the link is the generic template filled with them. The id does not end with '/'. |
| ResourceLinkParser.Parse | lib/api/utilities/resource_link_parser.rb:34-39 | A parsed link always has a namespace, and its id never ends with '/'. |
| ResourceLinkParser.AnyEquals | lib/api/utilities/resource_link_parser.rb:101 | `any?` with equality: it is true exactly when the actual value is set and occurs in the list. |
| ResourceLinkParser.MatchesExpectation | lib/api/utilities/resource_link_parser.rb:100-102 | No expectation always matches. A scalar (`Array` makes it a one-element list, `AsList`) matches only an equal value, and a list matches any of its elements. An unset actual matches only no expectation. |
| ResourceLinkParser.HintNamespaces | lib/api/utilities/resource_link_parser.rb:106 | `Array` of the expected namespaces, with `:resource` standing in for `nil`: `:resource` when no namespace is expected, otherwise exactly the namespaces that would match, a list in its own order. The hint list is empty only for an empty list. |
| ResourceLinkParser.VersionText | lib/api/utilities/resource_link_parser.rb:105 | `"#{version}"`: empty for `nil`, the string itself for a scalar, and for a list a text that opens with `[` and closes with `]`. |
| ResourceLinkParser.Inspect | lib/api/utilities/resource_link_parser.rb:105 | `Array#inspect` on a list of strings: always bracketed, and `[]` exactly for the empty list. |
| ResourceLinkParser.JoinQuoted | lib/api/utilities/resource_link_parser.rb:105 | Empty exactly when there are no elements; otherwise the text opens and closes with a quote. |
| ResourceLinkParser.ExpectedLinks | lib/api/utilities/resource_link_parser.rb:104-109 | One hint per expected namespace, in order, with `:resource` when none is expected. Each hint is the generic link with version slot `v` plus the version text and the id `:id`. |
| ResourceLinkParser.HintLink | lib/api/utilities/resource_link_parser.rb:108 | The interpolated hint string is the generic link filled with the version text, the namespace and the placeholder id `:id`. |
| ResourceLinkParser.ParseId | lib/api/utilities/resource_link_parser.rb:41-60 | `ArgumentError` exactly when the link is missing. The id exactly when the link parses and both expectations match, and then it is the parsed id. Otherwise `InvalidResourceLink` with the property, the expected links and the unchanged link. |
| ResourceLinkProperties.ShapeOrderIrrelevant | lib/api/utilities/resource_link_parser.rb:38 | Trying the string-object shape first changes nothing, since the generic shape never parses a string-object link. |
| ResourceLinkProperties.ParseResourceLink | lib/api/utilities/resource_link_parser.rb:64-76 | Round trip for the generic shape. A filled-in link parses back to exactly its parts, and the id keeps its inner '/'. It does not parse at all when a part is empty or the id ends with '/'. |
| ResourceLinkProperties.ParseStringObjectLink | lib/api/utilities/resource_link_parser.rb:78-88 | A string-object link parses to namespace `string_objects`, its version (unset when empty) and the `\w*` prefix of the value. |
| ResourceLinkProperties.ScalarIsSingletonList | lib/api/utilities/resource_link_parser.rb:101-106 | A scalar expectation acts as the one-element list in matching, and as a namespace expectation in the hint. An empty list matches nothing. |
| ResourceLinkProperties.ParseIdOnResourceLink | lib/api/utilities/resource_link_parser.rb:41-60 | `parse_id` on any generic link: the id exactly when the link is complete and both expectations hold, the error with the unchanged link otherwise. |
| ResourceLinkProperties.ParseIdOnStringObjectLink | lib/api/utilities/resource_link_parser.rb:41-60 | `parse_id` on any string-object link. An unset version meets no version expectation except none. |
| ResourceLinkProperties.ExpectedLinksAreAccepted | lib/api/utilities/resource_link_parser.rb:104-109 | When a scalar version and a scalar or a list of namespaces are expected, all of them non-empty simple runs (no `/`, `?` or other reserved character), each hint is a link that `parse_id` accepts with the same expectations, returning `:id`. With no namespace expected the hint holds `:resource`, which is not a simple run, and this does not hold. |
| ResourceLinkProperties.UnsetVersionHint | lib/api/utilities/resource_link_parser.rb:105 | With no version expected, every hint starts with `/api/v/`, never with `:apiVersion`, and is not a generic link the parser accepts. |
| ResourceLinkProperties.ListVersionHintNeverParses | lib/api/utilities/resource_link_parser.rb:105 | With a list of versions expected, the version is written as `v["3"]`, so no hint parses. |
| ResourceLinkProperties.ExampleNestedId | lib/api/utilities/resource_link_parser.rb:91 | `/api/v3/work_packages/42/relations/7` has namespace `work_packages` and id `42/relations/7`. |
| ResourceLinkProperties.ExampleTrailingSlash | lib/api/utilities/resource_link_parser.rb:75 | `/api/v3/work_packages/42/` does not parse. |
| ResourceLinkProperties.ExampleMissingNamespace | lib/api/utilities/resource_link_parser.rb:75 | `/api/v3//42` does not parse. |
| ResourceLinkProperties.ExampleWordPrefix | lib/api/utilities/resource_link_parser.rb:86 | `\w*` on `hello-world` gives `hello`. |
| ResourceLinkProperties.ExampleStringObject | lib/api/utilities/resource_link_parser.rb:78-88 | `/api/v3/string_objects?value=hello-world` parses to version `3`, namespace `string_objects` and id `hello`. |
| ResourceLinkProperties.ExampleStringObjectWithoutVersion | lib/api/utilities/resource_link_parser.rb:84 | `/api/v/string_objects?value=foo` parses, with an unset version. |
| ResourceLinkProperties.ExampleParseIdMatches | lib/api/utilities/resource_link_parser.rb:41-60 | Version `3` and namespace `work_packages`, both as expected, give the id `42`. |
| ResourceLinkProperties.ExampleParseIdAnyNamespace | lib/api/utilities/resource_link_parser.rb:101 | A namespace that is in the expected list is accepted. |
| ResourceLinkProperties.ExampleParseIdWrongNamespace | lib/api/utilities/resource_link_parser.rb:54-57 | With version `3` and namespace `work_packages` expected, a `projects` link gives `InvalidResourceLink` with the hint `/api/v3/work_packages/:id` and the link unchanged. |
| ResourceLinkProperties.ExampleParseIdMissingLink | lib/api/utilities/resource_link_parser.rb:45 | A missing link raises `ArgumentError`. |
| ResourceLinkProperties.ExampleParseIdEmptyLink | lib/api/utilities/resource_link_parser.rb:45-57 | An empty link is not missing. It fails as an invalid link with the hint `/api/v/:resource/:id`. |

## Left out

- `Addressable::URI.parse` is left out. It raises on some malformed inputs, and the model treats parsing and re-serialising a link as the identity.
- `LinkTemplates.ExtractResource`: captures are not percent-decoded. A `%HH` triplet is accepted in a capture but kept as written.
- `LinkTemplates.ExtractStringObject`: captures are not percent-decoded, as above.
- Characters outside ASCII are never admitted in a capture and never count as word characters. Any normalisation of them by the URI library is not modelled.
- The memoised templates (`||=`) are left out: they are state-free constants here, and concurrent first use is not modelled.
- Only the fields of the `InvalidResourceLink` error are modelled. How the error renders its message is not part of this model.
- `ResourceLinkParser.ParseId`: a `false` link is modelled as `None`, like `nil`. Links are strings, so `to_s` on other objects is not modelled.
- `ResourceLinkParser.MatchesExpectation`: expectations are strings, one string or a list of strings. `to_s` on other values such as integers, and `false` as an expectation, are not modelled.
- `ResourceLinkParser.Inspect`: its contract states only the brackets, not the quoted elements between them. Ruby's `String#inspect` escaping of quotes, backslashes and control characters inside the listed versions is not modelled. Each version is written between plain quotes.
- `ResourceLinkParser.VersionText`: for a list, its contract states only the brackets around the text, not the quoted, comma-separated versions inside, in order.
- `ResourceLinkParser.JoinQuoted`: its contract states only emptiness and the outer quotes, not the elements in order with `", "` between them.
- The property name is kept as an opaque string.
