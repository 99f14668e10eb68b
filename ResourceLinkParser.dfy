/**
  The resource-link parser: turns a link such as `/api/v3/work_packages/42`
  into its version, namespace and id, and checks them against what the
  caller expects, failing with an `InvalidResourceLink` error that lists the
  expected link formats.
 */
module ResourceLinkParser {
  import opened Wrappers
  import opened UriChars
  import opened LinkTemplates

  /** A parsed link. Only a string-object link can leave the version unset. */
  datatype Parsed = Parsed(version: Option<string>, namespace: string, id: string)

  /**
    What the caller expects of a field: nothing (`nil`), one value (a scalar)
    or any value of a list. The scalar and the list form are kept apart
    because the error hint renders them differently.
   */
  datatype Expectation = NoConstraint | Exactly(value: string) | AnyOf(values: seq<string>)

  /** The outcome of `parse_id`: the id, or one of the two errors it raises. */
  datatype LinkOutcome =
    | Id(id: string)
    | ArgumentError
    | InvalidResourceLink(property: string, expected: seq<string>, link: string)

  /** A string-object link: namespace `string_objects`, id the word-character prefix of the value. */
  function ParseStringObject(link: string): (r: Option<Parsed>)
    ensures r.Some? ==> r.value.namespace == STRING_OBJECTS
    ensures r.Some? ==> IsRun(Simple, Text(r.value.version))
    ensures r.Some? ==>
              exists value :: IsRun(Reserved, value) && link == StringObjectLink(Text(r.value.version), value)
                              && r.value.id == WordPrefix(value)
    ensures r.Some? ==> r.value.version != Some("")
    ensures r.Some? ==> forall k :: 0 <= k < |r.value.id| ==> IsWordChar(r.value.id[k])
  {
    match ExtractStringObject(link)
    case None => None
    case Some(c) => Some(Parsed(c.version, STRING_OBJECTS, WordPrefix(Text(c.value))))
  }

  /**
    A generic link: all three captures must be set and the id must not end
    with '/'; an incomplete match is no match.
   */
  function ParseResource(link: string): (r: Option<Parsed>)
    ensures r.Some? ==>
      && r.value.version.Some?
      && link == ResourceLink(r.value.version.value, r.value.namespace, r.value.id)
      && r.value.version.value != [] && IsRun(Simple, r.value.version.value)
      && r.value.namespace != [] && IsRun(Simple, r.value.namespace)
      && r.value.id != [] && IsRun(Reserved, r.value.id) && !EndsWithSlash(r.value.id)
  {
    match ExtractResource(link)
    case None => None
    case Some(c) =>
      if c.version.None? || c.namespace.None? || c.id.None? || EndsWithSlash(c.id.value) then None
      else Some(Parsed(c.version, c.namespace.value, c.id.value))
  }

  /** The string-object shape is tried first, the generic shape only when it fails. */
  function Parse(link: string): (r: Option<Parsed>)
    ensures r.Some? ==> r.value.namespace != [] && !EndsWithSlash(r.value.id)
  {
    match ParseStringObject(link)
    case Some(p) =>
      WordRunEndsWithoutSlash(p.id);
      Some(p)
    case None => ParseResource(link)
  }

  /** Ruby's `Array(x)`: no element for `nil`, one for a scalar, the list itself for a list. */
  function AsList(e: Expectation): seq<string> {
    match e
    case NoConstraint => []
    case Exactly(v) => [v]
    case AnyOf(vs) => vs
  }

  /** Ruby's `xs.any? { |e| e == actual }`, where a `nil` actual equals no string. */
  function AnyEquals(xs: seq<string>, actual: Option<string>): (b: bool)
    ensures b <==> actual.Some? && actual.value in xs
  {
    if xs == [] then false
    else Some(xs[0]) == actual || AnyEquals(xs[1..], actual)
  }

  function MatchesExpectation(expected: Expectation, actual: Option<string>): (b: bool)
    ensures expected.NoConstraint? ==> b
    ensures expected.Exactly? ==> (b <==> actual == Some(expected.value))
    ensures expected.AnyOf? ==> (b <==> exists k :: 0 <= k < |expected.values| && Some(expected.values[k]) == actual)
  {
    expected.NoConstraint? || AnyEquals(AsList(expected), actual)
  }

  /**
    The namespaces the error hint lists: `:resource` when none was expected,
    otherwise exactly the namespaces that would have matched, in the order
    given. Only an empty list of namespaces gives no hint at all.
   */
  function HintNamespaces(namespaces: Expectation): (hinted: seq<string>)
    ensures namespaces.NoConstraint? ==> hinted == [":resource"]
    ensures !namespaces.NoConstraint? ==>
              forall namespace :: MatchesExpectation(namespaces, Some(namespace)) <==> namespace in hinted
    ensures namespaces.AnyOf? ==> hinted == namespaces.values
    ensures hinted == [] <==> namespaces == AnyOf([])
  {
    if namespaces.NoConstraint? then [":resource"] else AsList(namespaces)
  }

  /** Ruby's `Array#inspect` for a list of strings (string escaping aside): bracketed, each element quoted. */
  function Inspect(xs: seq<string>): (text: string)
    ensures |text| >= 2 && text[0] == '[' && text[|text| - 1] == ']'
    ensures xs == [] <==> text == "[]"
  {
    "[" + JoinQuoted(xs) + "]"
  }

  function JoinQuoted(xs: seq<string>): (text: string)
    ensures xs == [] <==> text == []
    ensures xs != [] ==> |text| >= 2 && text[0] == '"' && text[|text| - 1] == '"'
    decreases |xs|
  {
    if xs == [] then ""
    else if |xs| == 1 then "\"" + xs[0] + "\""
    else "\"" + xs[0] + "\", " + JoinQuoted(xs[1..])
  }

  /**
    The expectation as `"#{version}"` writes it: empty for `nil`, the string
    itself for a scalar, the bracketed list for a list.
   */
  function VersionText(version: Expectation): (text: string)
    ensures version.NoConstraint? ==> text == ""
    ensures version.Exactly? ==> text == version.value
    ensures version.AnyOf? ==> |text| >= 2 && text[0] == '[' && text[|text| - 1] == ']'
  {
    match version
    case NoConstraint => ""
    case Exactly(v) => v
    case AnyOf(vs) => Inspect(vs)
  }

  /**
    The expected link formats of the error: one per hinted namespace, in
    order, each a generic link whose id is the placeholder `:id`. The version
    slot is always `v` followed by the version text, so the `:apiVersion`
    fallback of the source never shows.
   */
  function ExpectedLinks(version: Expectation, namespaces: Expectation): (links: seq<string>)
    ensures |links| == |HintNamespaces(namespaces)|
    ensures forall k :: 0 <= k < |links| ==>
              links[k] == ResourceLink(VersionText(version), HintNamespaces(namespaces)[k], ":id")
  {
    var hinted := HintNamespaces(namespaces);
    seq(|hinted|, k requires 0 <= k < |hinted| => HintLink(VersionText(version), hinted[k]))
  }

  /** One hint, `"/api/v#{version}/#{namespace}/:id"`: the generic link with the placeholder id. */
  function HintLink(versionText: string, namespace: string): (hint: string)
    ensures hint == ResourceLink(versionText, namespace, ":id")
  {
    assert "/api/" + ("v" + versionText) == API_PREFIX + versionText;
    assert "/:id" == "/" + ":id";
    "/api/" + ("v" + versionText) + "/" + namespace + "/:id"
  }

  /**
    `parse_id`: `None` stands for a `nil` or `false` link. The id comes back
    exactly when the link parses and both expectations hold; otherwise the
    error carries the property, the expected formats and the link unchanged.
   */
  function ParseId(link: Option<string>, property: string, expectedVersion: Expectation, expectedNamespace: Expectation)
    : (r: LinkOutcome)
    ensures r.ArgumentError? <==> link.None?
    ensures r.Id? <==>
              && link.Some? && Parse(link.value).Some?
              && MatchesExpectation(expectedVersion, Parse(link.value).value.version)
              && MatchesExpectation(expectedNamespace, Some(Parse(link.value).value.namespace))
    ensures r.Id? ==> r.id == Parse(link.value).value.id
    ensures r.InvalidResourceLink? ==>
              r == InvalidResourceLink(property, ExpectedLinks(expectedVersion, expectedNamespace), link.value)
  {
    match link
    case None => ArgumentError
    case Some(resourceLink) =>
      var resource := Parse(resourceLink);
      if resource.Some?
         && MatchesExpectation(expectedVersion, resource.value.version)
         && MatchesExpectation(expectedNamespace, Some(resource.value.namespace))
      then
        Id(resource.value.id)
      else
        InvalidResourceLink(property, ExpectedLinks(expectedVersion, expectedNamespace), resourceLink)
  }

}
