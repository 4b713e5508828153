/** The condition an ingest trigger places on a newly ingested source file:
    an optional media type and three sets of data type tags ("all of",
    "any of", "none of"). The behaviour is the one pinned down by the
    ingest trigger condition tests; each test is restated below as a
    lemma about `IsConditionMet`. */
module IngestTriggerCondition {
  import opened Wrappers

  /** A trigger condition; an absent tag set is the empty set. */
  datatype Condition = Condition(
    mediaType: Option<string>,
    allOf: set<string>,
    anyOf: set<string>,
    noneOf: set<string>)

  /** The parts of a source file the condition looks at. */
  datatype SourceFile = SourceFile(mediaType: string, tags: set<string>)

  /** Builds a condition the way the trigger's constructor is called:
      media type, required data types, then optionally the "any of" and
      "none of" data types; an omitted or None set imposes nothing. */
  function NewCondition(mediaType: Option<string>, dataTypes: Option<set<string>>,
                        anyDataTypes: Option<set<string>> := None,
                        notDataTypes: Option<set<string>> := None): (c: Condition)
    ensures forall f :: IsConditionMet(c, f) <==>
              && (mediaType.None? || mediaType.value == f.mediaType)
              && (dataTypes.None? || dataTypes.value <= f.tags)
              && (anyDataTypes.None? || anyDataTypes.value == {} || anyDataTypes.value * f.tags != {})
              && (notDataTypes.None? || notDataTypes.value * f.tags == {})
  {
    Condition(mediaType,
              if dataTypes.Some? then dataTypes.value else {},
              if anyDataTypes.Some? then anyDataTypes.value else {},
              if notDataTypes.Some? then notDataTypes.value else {})
  }

  /** A file meets the condition when its media type is the required one (if
      any), it carries every "all of" tag, it shares a tag with a non-empty
      "any of" set, and it carries no "none of" tag. */
  predicate IsConditionMet(c: Condition, f: SourceFile)
  {
    && (c.mediaType.None? || c.mediaType.value == f.mediaType)
    && c.allOf <= f.tags
    && (c.anyOf == {} || c.anyOf * f.tags != {})
    && c.noneOf * f.tags == {}
  }

  /** A condition built from a media type alone accepts every file of that
      media type (any file at all when no media type is given), whatever its
      tags. */
  lemma OmittedSetsImposeNothing(mediaType: Option<string>, f: SourceFile)
    ensures IsConditionMet(NewCondition(mediaType, None), f) <==> (mediaType.None? || mediaType.value == f.mediaType)
  {
  }

  /** The same condition stated tag by tag. */
  lemma ConditionMetTagByTag(c: Condition, f: SourceFile)
    ensures IsConditionMet(c, f) <==>
              && (c.mediaType.None? || c.mediaType.value == f.mediaType)
              && (forall t :: t in c.allOf ==> t in f.tags)
              && (c.anyOf == {} || exists t :: t in c.anyOf && t in f.tags)
              && (forall t :: t in f.tags ==> t !in c.noneOf)
  {
    if c.anyOf * f.tags != {} {
      var t :| t in c.anyOf * f.tags;
      assert t in c.anyOf && t in f.tags;
    } else {
      forall t | t in c.anyOf ensures t !in f.tags {
        assert t !in c.anyOf * f.tags;
      }
    }
    if c.noneOf * f.tags != {} {
      var t :| t in c.noneOf * f.tags;
      assert t in f.tags && t in c.noneOf;
    } else {
      forall t | t in f.tags ensures t !in c.noneOf {
        assert t !in c.noneOf * f.tags;
      }
    }
  }

  /** The four parts of a condition are checked independently and combined
      by conjunction: a condition is met exactly when each part, taken on
      its own with the others left empty, is met. */
  lemma ConditionIsConjunction(c: Condition, f: SourceFile)
    ensures IsConditionMet(c, f) <==>
              && IsConditionMet(Condition(c.mediaType, {}, {}, {}), f)
              && IsConditionMet(Condition(None, c.allOf, {}, {}), f)
              && IsConditionMet(Condition(None, {}, c.anyOf, {}), f)
              && IsConditionMet(Condition(None, {}, {}, c.noneOf), f)
  {
  }

  /** Tags outside the "none of" set never turn a met condition into an
      unmet one. */
  lemma ExtraTagsDoNotMatter(c: Condition, f: SourceFile, extra: set<string>)
    requires IsConditionMet(c, f)
    requires extra * c.noneOf == {}
    ensures IsConditionMet(c, SourceFile(f.mediaType, f.tags + extra))
  {
    assert c.noneOf * (f.tags + extra) == c.noneOf * f.tags + c.noneOf * extra;
    if c.anyOf != {} {
      var t :| t in c.anyOf * f.tags;
      assert t in c.anyOf * (f.tags + extra);
    }
  }

  function PlainText(tags: set<string>): SourceFile
  {
    SourceFile("text/plain", tags)
  }

  // One lemma per test of the condition.

  lemma TestNoConditions()
    ensures IsConditionMet(NewCondition(None, None), PlainText({}))
  {
  }

  lemma TestMediaTypeMatch()
    ensures IsConditionMet(NewCondition(Some("text/plain"), None), PlainText({}))
  {
  }

  lemma TestMediaTypeMismatch()
    ensures !IsConditionMet(NewCondition(Some("application/json"), None), PlainText({}))
  {
  }

  lemma TestHasDataTypes()
    ensures IsConditionMet(NewCondition(None, Some({"A", "B", "C"})), PlainText({"A", "B", "C", "D", "E"}))
  {
  }

  lemma TestDoesNotHaveDataTypes()
    ensures !IsConditionMet(NewCondition(None, Some({"A", "B", "C"})), PlainText({"A", "B"}))
  {
    assert "C" !in PlainText({"A", "B"}).tags;
  }

  lemma TestBothCorrect()
    ensures IsConditionMet(NewCondition(Some("text/plain"), Some({"A", "B", "C"})), PlainText({"A", "B", "C"}))
  {
  }

  lemma TestMediaTypeIncorrect()
    ensures !IsConditionMet(NewCondition(Some("application/json"), Some({"A", "B", "C"})), PlainText({"A", "B", "C"}))
  {
  }

  lemma TestDataTypesIncorrect()
    ensures !IsConditionMet(NewCondition(Some("text/plain"), Some({"A", "B", "C", "D"})), PlainText({"A", "B", "C"}))
  {
    assert "D" !in PlainText({"A", "B", "C"}).tags;
  }

  lemma TestHasAnyDataTypes()
    ensures IsConditionMet(NewCondition(None, Some({}), Some({"A", "B", "C"}), Some({})), PlainText({"B"}))
  {
    assert "B" in {"A", "B", "C"} * {"B"};
  }

  /** The first of the two tests named `test_has_not_data_types`; the second
      definition replaces it, so it never runs. Its "none of" set is the
      single tag "AB" (two adjacent string literals). */
  lemma TestHasNotDataTypesShadowed()
    ensures IsConditionMet(NewCondition(None, Some({}), Some({}), Some({"AB"})), PlainText({"C"}))
  {
    assert "AB" != "C";
    assert {"AB"} * {"C"} == {};
  }

  lemma TestHasAnyAndNotDataTypes()
    ensures IsConditionMet(NewCondition(None, Some({}), Some({"A", "B"}), Some({"C", "D"})), PlainText({"A", "B"}))
  {
    assert "A" in {"A", "B"} * {"A", "B"};
    assert {"C", "D"} * {"A", "B"} == {};
  }

  lemma TestHasAllDataTypes()
    ensures IsConditionMet(NewCondition(None, Some({"A"}), Some({"A", "B"}), Some({"C"})), PlainText({"A", "B"}))
  {
    assert "A" in {"A", "B"} * {"A", "B"};
    assert {"C"} * {"A", "B"} == {};
  }

  lemma TestNoAnyDataTypes()
    ensures !IsConditionMet(NewCondition(None, Some({}), Some({"A", "B", "C"}), Some({})), PlainText({"F"}))
  {
    assert {"A", "B", "C"} * {"F"} == {};
  }

  lemma TestHasNotDataTypes()
    ensures !IsConditionMet(NewCondition(None, Some({}), Some({}), Some({"A", "B", "C"})), PlainText({"A"}))
  {
    assert "A" in {"A", "B", "C"} * {"A"};
  }
}
