/**
 * Worked examples of the string helpers of src/util.ts, each computed one
 * replacement step at a time.
 */
module UtilExamples {
  import opened Js
  import opened Strings
  import opened Util

  lemma FooBarBlanked()
    ensures BlankUnsafe("foo_bar") == "foo_bar"
  {
  }

  lemma FooBarLeadingUnderscore()
    ensures CapitalizeLeadingUnderscore("foo_bar") == "foo_bar"
  {
  }

  lemma FooBarSnakeCase()
    ensures SnakeToCamel("foo_bar") == "fooBar"
  {
  }

  lemma FooBarDigitRuns()
    ensures UpperAfterRun("fooBar", DigitOrDollar) == "fooBar"
  {
  }

  lemma FooBarSpaceRuns()
    ensures UpperAfterRun("fooBar", Space) == "fooBar"
  {
  }

  lemma FooBarSpacesRemoved()
    ensures RemoveSpaces("fooBar") == "fooBar"
  {
    RemoveSpacesOfSpaceFree("fooBar");
  }

  lemma FooBarFirstCapitalized()
    ensures CapitalizeFirst("fooBar") == "FooBar"
  {
  }

  /** `toSafeString("foo_bar")` is "FooBar": snake_case becomes PascalCase. */
  lemma FooBarExample()
    ensures ToSafeString("foo_bar") == "FooBar"
  {
    FooBarBlanked();
    FooBarLeadingUnderscore();
    FooBarSnakeCase();
    FooBarDigitRuns();
    FooBarSpaceRuns();
    FooBarSpacesRemoved();
    FooBarFirstCapitalized();
  }

  lemma FooSpaceBarBlanked()
    ensures BlankUnsafe("foo bar") == "foo bar"
  {
  }

  lemma FooSpaceBarLeadingUnderscore()
    ensures CapitalizeLeadingUnderscore("foo bar") == "foo bar"
  {
  }

  lemma FooSpaceBarSnakeCase()
    ensures SnakeToCamel("foo bar") == "foo bar"
  {
    SnakeToCamelOfUnderscoreFree("foo bar");
  }

  lemma FooSpaceBarDigitRuns()
    ensures UpperAfterRun("foo bar", DigitOrDollar) == "foo bar"
  {
  }

  lemma FooSpaceBarSpaceRuns()
    ensures UpperAfterRun("foo bar", Space) == "foo Bar"
  {
  }

  lemma FooSpaceBarSpacesRemoved()
    ensures RemoveSpaces("foo Bar") == "fooBar"
  {
  }

  lemma FooSpaceBarFirstCapitalized()
    ensures CapitalizeFirst("fooBar") == "FooBar"
  {
  }

  /** `toSafeString("foo bar")` is "FooBar": a separator becomes a word boundary. */
  lemma FooSpaceBarExample()
    ensures ToSafeString("foo bar") == "FooBar"
  {
    FooSpaceBarBlanked();
    FooSpaceBarLeadingUnderscore();
    FooSpaceBarSnakeCase();
    FooSpaceBarDigitRuns();
    FooSpaceBarSpaceRuns();
    FooSpaceBarSpacesRemoved();
    FooSpaceBarFirstCapitalized();
  }

  lemma AppendBlanked()
    ensures BlankUnsafe("append") == "append"
  {
  }

  lemma AppendLeadingUnderscore()
    ensures CapitalizeLeadingUnderscore("append") == "append"
  {
  }

  lemma AppendSnakeCase()
    ensures SnakeToCamel("append") == "append"
  {
    SnakeToCamelOfUnderscoreFree("append");
  }

  lemma AppendDigitRuns()
    ensures UpperAfterRun("append", DigitOrDollar) == "append"
  {
  }

  lemma AppendSpaceRuns()
    ensures UpperAfterRun("append", Space) == "append"
  {
  }

  lemma AppendSpacesRemoved()
    ensures RemoveSpaces("append") == "append"
  {
    RemoveSpacesOfSpaceFree("append");
  }

  lemma AppendFirstCapitalized()
    ensures CapitalizeFirst("append") == "Append"
  {
  }

  /** `toSafeString("append")` is "Append": a lowercase start is capitalised. */
  lemma AppendExample()
    ensures ToSafeString("append") == "Append"
  {
    AppendBlanked();
    AppendLeadingUnderscore();
    AppendSnakeCase();
    AppendDigitRuns();
    AppendSpaceRuns();
    AppendSpacesRemoved();
    AppendFirstCapitalized();
  }

  lemma UnderscoreGetBlanked()
    ensures BlankUnsafe("_get") == "_get"
  {
  }

  lemma UnderscoreGetLeadingUnderscore()
    ensures CapitalizeLeadingUnderscore("_get") == "_Get"
  {
  }

  lemma UnderscoreGetSnakeCase()
    ensures SnakeToCamel("_Get") == "_Get"
  {
  }

  lemma UnderscoreGetDigitRuns()
    ensures UpperAfterRun("_Get", DigitOrDollar) == "_Get"
  {
  }

  lemma UnderscoreGetSpaceRuns()
    ensures UpperAfterRun("_Get", Space) == "_Get"
  {
  }

  lemma UnderscoreGetSpacesRemoved()
    ensures RemoveSpaces("_Get") == "_Get"
  {
    RemoveSpacesOfSpaceFree("_Get");
  }

  lemma UnderscoreGetFirstCapitalized()
    ensures CapitalizeFirst("_Get") == "_Get"
  {
  }

  /** `toSafeString("_get")` is "_Get": a leading `_x` keeps its underscore. */
  lemma UnderscoreGetExample()
    ensures ToSafeString("_get") == "_Get"
  {
    UnderscoreGetBlanked();
    UnderscoreGetLeadingUnderscore();
    UnderscoreGetSnakeCase();
    UnderscoreGetDigitRuns();
    UnderscoreGetSpaceRuns();
    UnderscoreGetSpacesRemoved();
    UnderscoreGetFirstCapitalized();
  }

  lemma LeadingDigitsBlanked()
    ensures BlankUnsafe("12abc") == " 2abc"
  {
  }

  lemma LeadingDigitsLeadingUnderscore()
    ensures CapitalizeLeadingUnderscore(" 2abc") == " 2abc"
  {
  }

  lemma LeadingDigitsSnakeCase()
    ensures SnakeToCamel(" 2abc") == " 2abc"
  {
    SnakeToCamelOfUnderscoreFree(" 2abc");
  }

  lemma LeadingDigitsDigitRuns()
    ensures UpperAfterRun(" 2abc", DigitOrDollar) == " 2Abc"
  {
  }

  lemma LeadingDigitsSpaceRuns()
    ensures UpperAfterRun(" 2Abc", Space) == " 2Abc"
  {
  }

  lemma LeadingDigitsSpacesRemoved()
    ensures RemoveSpaces(" 2Abc") == "2Abc"
  {
  }

  lemma LeadingDigitsFirstCapitalized()
    ensures CapitalizeFirst("2Abc") == "2Abc"
  {
  }

  /** `toSafeString("12abc")` is "2Abc": the first digit is blanked, the next one capitalises the letter after it. */
  lemma LeadingDigitsExample()
    ensures ToSafeString("12abc") == "2Abc"
  {
    LeadingDigitsBlanked();
    LeadingDigitsLeadingUnderscore();
    LeadingDigitsSnakeCase();
    LeadingDigitsDigitRuns();
    LeadingDigitsSpaceRuns();
    LeadingDigitsSpacesRemoved();
    LeadingDigitsFirstCapitalized();
  }

  lemma LeadingDigitAgainBlanked()
    ensures BlankUnsafe("2Abc") == " Abc"
  {
  }

  lemma LeadingDigitAgainLeadingUnderscore()
    ensures CapitalizeLeadingUnderscore(" Abc") == " Abc"
  {
  }

  lemma LeadingDigitAgainSnakeCase()
    ensures SnakeToCamel(" Abc") == " Abc"
  {
    SnakeToCamelOfUnderscoreFree(" Abc");
  }

  lemma LeadingDigitAgainDigitRuns()
    ensures UpperAfterRun(" Abc", DigitOrDollar) == " Abc"
  {
  }

  lemma LeadingDigitAgainSpaceRuns()
    ensures UpperAfterRun(" Abc", Space) == " Abc"
  {
  }

  lemma LeadingDigitAgainSpacesRemoved()
    ensures RemoveSpaces(" Abc") == "Abc"
  {
  }

  lemma LeadingDigitAgainFirstCapitalized()
    ensures CapitalizeFirst("Abc") == "Abc"
  {
  }

  /** `toSafeString("2Abc")` is "Abc": a second pass blanks the digit that survived the first. */
  lemma LeadingDigitAgainExample()
    ensures ToSafeString("2Abc") == "Abc"
  {
    LeadingDigitAgainBlanked();
    LeadingDigitAgainLeadingUnderscore();
    LeadingDigitAgainSnakeCase();
    LeadingDigitAgainDigitRuns();
    LeadingDigitAgainSpaceRuns();
    LeadingDigitAgainSpacesRemoved();
    LeadingDigitAgainFirstCapitalized();
  }


  lemma ImportFreeTail()
    ensures RemoveImport("Foo") == "Foo"
  {
    assert ImportMatchLength("Foo").None?;
    assert ImportMatchLength("oo").None?;
    assert ImportMatchLength("o").None?;
  }

  /** No qualifier starts inside `Promise<`, whatever follows it. */
  lemma PromiseOpenerImportFree(s: string)
    ensures forall k :: 0 <= k < |"Promise<"| ==> ImportMatchLength(("Promise<" + s)[k..]).None?
  {
    var a := "Promise<";
    forall k | 0 <= k < |a| ensures ImportMatchLength((a + s)[k..]).None? {
      var t := (a + s)[k..];
      assert t[0] == a[k];
      if k == 4 {
        assert t[1] == a[5];
      }
      NoImportAt(t);
    }
  }

  /** `Foo>` holds no `import("`. */
  lemma ClosedFooImportFree()
    ensures NoOccurrence("Foo>", ImportOpen)
  {
    forall k | 0 <= k <= |"Foo>"| ensures !(ImportOpen <= "Foo>"[k..]) {
      if k < |"Foo>"| {
        assert "Foo>"[k..][0] == "Foo>"[k];
      }
    }
  }

  /**
   * `removeImport('Promise<import("/x").Foo>')` is `Promise<Foo>`: a qualifier
   * after other text is deleted too, whatever its path and the text after it.
   */
  lemma RemoveImportInsideExample(p: string, t: string)
    requires p != [] && forall i :: 0 <= i < |p| ==> p[i] != '"'
    requires NoOccurrence(t, ImportOpen)
    ensures RemoveImport("Promise<" + ImportOpen + p + ImportClose + t) == "Promise<" + t
  {
    var a := "Promise<";
    var s := ImportOpen + p + ImportClose + t;
    assert a + ImportOpen + p + ImportClose + t == a + s;
    PromiseOpenerImportFree(s);
    RemoveImportKeepsPrefix(a, s);
    assert RemoveImport(a + s) == a + RemoveImport(s);
    RemoveImportDropsQualifier(p, t);
    assert RemoveImport(s) == RemoveImport(t);
    RemoveImportIdentity(t);
  }

  /** The instance `Promise<import("/x").Foo>`. */
  lemma RemoveImportInsideFoo()
    ensures RemoveImport("Promise<" + ImportOpen + "/x" + ImportClose + "Foo>") == "Promise<Foo>"
  {
    ClosedFooImportFree();
    RemoveImportInsideExample("/x", "Foo>");
  }

  /** `removeImport('import("/definition").Foo')` is `Foo`. */
  lemma RemoveImportExample()
    ensures RemoveImport(ImportOpen + "/definition" + ImportClose + "Foo") == "Foo"
  {
    RemoveImportDropsQualifier("/definition", "Foo");
    ImportFreeTail();
  }

  lemma PromiseOfBytesCapture(s: string)
    requires s == "Promise<Uint8Array>"
    ensures WrapperCapture(s) == Some("Uint8Array")
  {
    assert ClosedAt(s, 7, 18) && s[8..18] == "Uint8Array";
    CaptureFromFirst(s, 0, 7, 18);
  }

  lemma PromiseOfArrayCapture(s: string)
    requires s == "Promise<Array<Foo>>"
    ensures WrapperCapture(s) == Some("Array<Foo")
  {
    assert ClosedAt(s, 7, 17) && s[8..17] == "Array<Foo";
    CaptureFromFirst(s, 0, 7, 17);
  }

  lemma UnclosedCapture()
    ensures WrapperCapture("Array<Foo") == None
  {
  }

  lemma BareBytes()
    ensures Unwrapped("Uint8Array") == "Uint8Array"
  {
    UnwrappedWithoutAngle("Uint8Array");
  }

  /** `removeGenerics("Promise<Uint8Array>")` is `Uint8Array`. */
  lemma RemoveGenericsExample()
    ensures Unwrapped("Promise<Uint8Array>") == "Uint8Array"
  {
    PromiseOfBytesCapture("Promise<Uint8Array>");
    BareBytes();
  }

  /**
   * `removeGenerics("Promise<Array<Foo>>")` is `Array<Foo`: the capture runs to the
   * first `>`, and what is left has a `<` that no `>` closes.
   */
  lemma RemoveGenericsNestedExample()
    ensures Unwrapped("Promise<Array<Foo>>") == "Array<Foo"
  {
    PromiseOfArrayCapture("Promise<Array<Foo>>");
    UnclosedCapture();
  }

  /** `removeQuotes("'append'")` is `append`; an unquoted text is kept. */
  lemma RemoveQuotesExamples()
    ensures RemoveQuotes("'append'") == "append"
    ensures RemoveQuotes("\"foo\"") == "foo"
    ensures RemoveQuotes("foo") == "foo"
  {
    RemoveQuotesRoundTrip('\'', "append", '\'');
    assert "'append'" == ['\''] + "append" + ['\''];
    RemoveQuotesRoundTrip('"', "foo", '"');
    assert "\"foo\"" == ['"'] + "foo" + ['"'];
  }
}
