/**
  What the resource-link parser guarantees, over all links and for
  worked example links.
 */
module ResourceLinkProperties {
  import opened Wrappers
  import opened UriChars
  import opened LinkTemplates
  import opened ResourceLinkParser

  /**
    Trying the string-object shape first is never visible: the two shapes
    are disjoint, so trying the generic shape first would give the same
    result.
   */
  lemma ShapeOrderIrrelevant(link: string)
    ensures ParseStringObject(link).Some? ==> ParseResource(link).None?
    ensures Parse(link) == (if ParseResource(link).Some? then ParseResource(link) else ParseStringObject(link))
  {
    ShapesDisjoint(link);
  }

  /**
    A generic link with simple-run version and namespace and a reserved-run
    id parses to exactly its own parts, the id keeping any '/' it holds,
    unless a part is empty or the id ends with '/'; then it does not parse
    at all.
   */
  lemma ParseResourceLink(version: string, namespace: string, id: string)
    requires IsRun(Simple, version) && IsRun(Simple, namespace) && IsRun(Reserved, id)
    ensures Parse(ResourceLink(version, namespace, id))
            == if version != [] && namespace != [] && id != [] && !EndsWithSlash(id)
               then Some(Parsed(Some(version), namespace, id))
               else None
  {
    var link := ResourceLink(version, namespace, id);
    ExtractResourceComplete(version, namespace, id);
    ShapesDisjoint(link);
  }

  /**
    A string-object link parses to namespace `string_objects`, its version
    (unset when empty) and the word-character prefix of its value as id.
   */
  lemma ParseStringObjectLink(version: string, value: string)
    requires IsRun(Simple, version) && IsRun(Reserved, value)
    ensures Parse(StringObjectLink(version, value))
            == Some(Parsed(Capture(version), STRING_OBJECTS, WordPrefix(value)))
  {
    ExtractStringObjectComplete(version, value);
  }

  /** A scalar expectation behaves as the one-element list, in matching and in the hint. */
  lemma ScalarIsSingletonList(expected: string, actual: Option<string>)
    ensures MatchesExpectation(Exactly(expected), actual) == MatchesExpectation(AnyOf([expected]), actual)
    ensures HintNamespaces(Exactly(expected)) == HintNamespaces(AnyOf([expected]))
    ensures !MatchesExpectation(AnyOf([]), actual)
  {
  }

  /**
    `parse_id` on a generic link: the id when the link parses and its version
    and namespace meet the expectations, `InvalidResourceLink` with the link
    unchanged otherwise.
   */
  lemma ParseIdOnResourceLink(version: string, namespace: string, id: string, property: string,
                              expectedVersion: Expectation, expectedNamespace: Expectation)
    requires IsRun(Simple, version) && IsRun(Simple, namespace) && IsRun(Reserved, id)
    ensures var link := ResourceLink(version, namespace, id);
            ParseId(Some(link), property, expectedVersion, expectedNamespace)
            == if && version != [] && namespace != [] && id != [] && !EndsWithSlash(id)
                  && MatchesExpectation(expectedVersion, Some(version))
                  && MatchesExpectation(expectedNamespace, Some(namespace))
               then Id(id)
               else InvalidResourceLink(property, ExpectedLinks(expectedVersion, expectedNamespace), link)
  {
    ParseResourceLink(version, namespace, id);
  }

  /**
    `parse_id` on a string-object link: an unset version fails every version
    expectation but none.
   */
  lemma ParseIdOnStringObjectLink(version: string, value: string, property: string,
                                  expectedVersion: Expectation, expectedNamespace: Expectation)
    requires IsRun(Simple, version) && IsRun(Reserved, value)
    ensures var link := StringObjectLink(version, value);
            ParseId(Some(link), property, expectedVersion, expectedNamespace)
            == if && MatchesExpectation(expectedVersion, Capture(version))
                  && MatchesExpectation(expectedNamespace, Some(STRING_OBJECTS))
               then Id(WordPrefix(value))
               else InvalidResourceLink(property, ExpectedLinks(expectedVersion, expectedNamespace), link)
  {
    ParseStringObjectLink(version, value);
  }

  /**
    The hints of the error describe links that `parse_id` accepts: with a
    scalar version and a scalar or a list of namespaces expected, all of
    them non-empty simple runs, every expected link, read as a link, yields
    its placeholder id `:id`. With no namespace expected the hint holds
    `:resource`, which no namespace capture admits.
   */
  lemma ExpectedLinksAreAccepted(version: string, namespaces: Expectation, property: string)
    requires version != [] && IsRun(Simple, version)
    requires !namespaces.NoConstraint?
    requires forall k :: 0 <= k < |AsList(namespaces)| ==> AsList(namespaces)[k] != [] && IsRun(Simple, AsList(namespaces)[k])
    ensures var links := ExpectedLinks(Exactly(version), namespaces);
            forall k :: 0 <= k < |links| ==> ParseId(Some(links[k]), property, Exactly(version), namespaces) == Id(":id")
  {
    var links := ExpectedLinks(Exactly(version), namespaces);
    assert IsRun(Reserved, ":id");
    forall k | 0 <= k < |links|
      ensures ParseId(Some(links[k]), property, Exactly(version), namespaces) == Id(":id")
    {
      var namespace := AsList(namespaces)[k];
      ParseIdOnResourceLink(version, namespace, ":id", property, Exactly(version), namespaces);
      assert AnyEquals(AsList(namespaces), Some(namespace));
    }
  }

  /**
    The version slot of a hint always reads `v` and the version text: with no
    version expected it is a bare `v`, never the `:apiVersion` placeholder,
    and such a hint is not a generic link the parser accepts.
   */
  lemma UnsetVersionHint(namespaces: Expectation, k: nat)
    requires k < |ExpectedLinks(NoConstraint, namespaces)|
    ensures var hint := ExpectedLinks(NoConstraint, namespaces)[k];
            StartsWith(hint, "/api/v/") && ParseResource(hint).None?
  {
    var namespace := HintNamespaces(namespaces)[k];
    var hint := ExpectedLinks(NoConstraint, namespaces)[k];
    var afterPrefix := "" + ("/" + (namespace + ("/" + ":id")));
    assert hint == API_PREFIX + afterPrefix;
    StripPrefixOf(API_PREFIX, afterPrefix);
    SplitAtFirstOf("", '/', namespace + ("/" + ":id"));
    assert hint[..7] == "/api/v/";
  }

  /**
    With a list of versions expected, `"v#{version}"` writes the list as
    Ruby's `inspect` does (`v["3"]`), so no hint of the error parses.
   */
  lemma ListVersionHintNeverParses(versions: seq<string>, namespaces: Expectation, k: nat)
    requires k < |ExpectedLinks(AnyOf(versions), namespaces)|
    ensures Parse(ExpectedLinks(AnyOf(versions), namespaces)[k]).None?
  {
    var namespace := HintNamespaces(namespaces)[k];
    var hint := ExpectedLinks(AnyOf(versions), namespaces)[k];
    var text := VersionText(AnyOf(versions));
    var afterPrefix := text + ("/" + (namespace + ("/" + ":id")));
    assert hint == API_PREFIX + afterPrefix;
    assert afterPrefix[0] == '[';
    NoShapeWithBadVersionStart(afterPrefix);
  }

  // Worked example links, written through the link shapes:
  // `ResourceLink("3", "work_packages", "42")` is `/api/v3/work_packages/42`
  // and `StringObjectLink("3", "foo")` is `/api/v3/string_objects?value=foo`.

  /** `/api/v3/work_packages/42/relations/7`: the namespace is one segment, the id keeps the rest. */
  lemma ExampleNestedId()
    ensures Parse(ResourceLink("3", "work_packages", "42/relations/7"))
            == Some(Parsed(Some("3"), "work_packages", "42/relations/7"))
  {
    assert IsRun(Simple, "3") by { AdmittedCharsFormRun(Simple, "3"); }
    assert IsRun(Simple, "work_packages") by { AdmittedCharsFormRun(Simple, "work_packages"); }
    NestedIdIsRun();
    ParseResourceLink("3", "work_packages", "42/relations/7");
  }

  /** The id of that example is a reserved run without a trailing '/'. */
  lemma NestedIdIsRun()
    ensures IsRun(Reserved, "42/relations/7") && !EndsWithSlash("42/relations/7")
  {
    AdmittedCharsFormRun(Reserved, "42/relations/7");
  }

  /** `/api/v3/work_packages/42/`: a trailing '/' on the id rejects the link. */
  lemma ExampleTrailingSlash()
    ensures Parse(ResourceLink("3", "work_packages", "42/")) == None
  {
    assert IsRun(Simple, "3") by { AdmittedCharsFormRun(Simple, "3"); }
    assert IsRun(Simple, "work_packages") by { AdmittedCharsFormRun(Simple, "work_packages"); }
    assert IsRun(Reserved, "42/") by { AdmittedCharsFormRun(Reserved, "42/"); }
    ParseResourceLink("3", "work_packages", "42/");
  }

  /** `/api/v3//42`: an empty namespace is a missing one, and the link is rejected. */
  lemma ExampleMissingNamespace()
    ensures Parse(ResourceLink("3", "", "42")) == None
  {
    assert IsRun(Simple, "3") by { AdmittedCharsFormRun(Simple, "3"); }
    assert IsRun(Reserved, "42") by { AdmittedCharsFormRun(Reserved, "42"); }
    ParseResourceLink("3", "", "42");
  }

  /** `\w*` stops at the first non-word character. */
  lemma ExampleWordPrefix()
    ensures WordPrefix("hello-world") == "hello"
  {
    assert "hello-world" == "hello" + "-world";
    WordPrefixKeepsWordRun("hello", "-world");
  }

  /** `/api/v3/string_objects?value=hello-world`: the id stops at the first non-word character. */
  lemma ExampleStringObject()
    ensures Parse(StringObjectLink("3", "hello-world")) == Some(Parsed(Some("3"), STRING_OBJECTS, "hello"))
  {
    assert IsRun(Simple, "3") by { AdmittedCharsFormRun(Simple, "3"); }
    assert IsRun(Reserved, "hello-world") by { AdmittedCharsFormRun(Reserved, "hello-world"); }
    ParseStringObjectLink("3", "hello-world");
    ExampleWordPrefix();
  }

  /** `/api/v/string_objects?value=foo`: a string object parses even without a version. */
  lemma ExampleStringObjectWithoutVersion()
    ensures Parse(StringObjectLink("", "foo")) == Some(Parsed(None, STRING_OBJECTS, "foo"))
  {
    assert IsRun(Simple, "") && IsRun(Reserved, "foo") by { AdmittedCharsFormRun(Reserved, "foo"); }
    ParseStringObjectLink("", "foo");
    assert WordPrefix("foo") == "foo" by { WordPrefixKeepsWordRun("foo", ""); assert "foo" + "" == "foo"; }
  }

  lemma ExampleParseIdMatches()
    ensures ParseId(Some(ResourceLink("3", "work_packages", "42")), "id", Exactly("3"), Exactly("work_packages"))
            == Id("42")
  {
    assert IsRun(Simple, "3") by { AdmittedCharsFormRun(Simple, "3"); }
    assert IsRun(Simple, "work_packages") by { AdmittedCharsFormRun(Simple, "work_packages"); }
    assert IsRun(Reserved, "42") by { AdmittedCharsFormRun(Reserved, "42"); }
    ParseIdOnResourceLink("3", "work_packages", "42", "id", Exactly("3"), Exactly("work_packages"));
  }

  lemma ExampleParseIdAnyNamespace()
    ensures ParseId(Some(ResourceLink("3", "projects", "5")), "id", NoConstraint, AnyOf(["work_packages", "projects"]))
            == Id("5")
  {
    assert IsRun(Simple, "3") by { AdmittedCharsFormRun(Simple, "3"); }
    assert IsRun(Simple, "projects") by { AdmittedCharsFormRun(Simple, "projects"); }
    assert IsRun(Reserved, "5") by { AdmittedCharsFormRun(Reserved, "5"); }
    ParseIdOnResourceLink("3", "projects", "5", "id", NoConstraint, AnyOf(["work_packages", "projects"]));
    assert AnyEquals(["work_packages", "projects"], Some("projects"));
  }

  /** The error names the property, hints `/api/v3/work_packages/:id` and carries the link unchanged. */
  lemma ExampleParseIdWrongNamespace()
    ensures ParseId(Some(ResourceLink("3", "projects", "5")), "id", Exactly("3"), Exactly("work_packages"))
            == InvalidResourceLink("id", [ResourceLink("3", "work_packages", ":id")], ResourceLink("3", "projects", "5"))
  {
    assert IsRun(Simple, "3") by { AdmittedCharsFormRun(Simple, "3"); }
    assert IsRun(Simple, "projects") by { AdmittedCharsFormRun(Simple, "projects"); }
    assert IsRun(Reserved, "5") by { AdmittedCharsFormRun(Reserved, "5"); }
    assert !MatchesExpectation(Exactly("work_packages"), Some("projects")) by {
      assert "projects"[0] != "work_packages"[0];
    }
    assert ExpectedLinks(Exactly("3"), Exactly("work_packages")) == [ResourceLink("3", "work_packages", ":id")] by {
      var links := ExpectedLinks(Exactly("3"), Exactly("work_packages"));
      assert HintNamespaces(Exactly("work_packages")) == ["work_packages"];
      assert |links| == 1 && links[0] == ResourceLink("3", "work_packages", ":id");
    }
    ParseIdOnResourceLink("3", "projects", "5", "id", Exactly("3"), Exactly("work_packages"));
  }

  lemma ExampleParseIdMissingLink(property: string)
    ensures ParseId(None, property, NoConstraint, NoConstraint) == ArgumentError
  {
  }

  /** An empty link is not a missing one: it is parsed, and fails as an invalid link. */
  lemma ExampleParseIdEmptyLink(property: string)
    ensures ParseId(Some(""), property, NoConstraint, NoConstraint)
            == InvalidResourceLink(property, [ResourceLink("", ":resource", ":id")], "")
  {
  }

}
