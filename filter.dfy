/** Which anchors of a listing page are candidates, and which candidates are targets. */
module Filter {
  import opened Text
  import opened Externals

  /** Report titles looked for on the Bank of Russia calendar. */
  const CbrTargets: seq<string> := [
    "Обзор рисков финансовых рынков",
    "Региональная экономика",
    "Макроэкономический опрос",
    "Денежно-кредитные условия",
    "Мониторинг отраслевых финансовых потоков",
    "Доклад о денежно-кредитной политике"
  ]

  /** Review titles looked for in the Ministry of Economic Development section. */
  const MinecTargets: seq<string> := [
    "О текущей ситуации",
    "Картина деловой активности",
    "Экономический обзор"
  ]

  /** Labels of the download button searched for when a report page has no `.pdf` link. */
  const DownloadLabels: seq<string> := ["Скачать", "Полный текст"]

  /** An anchor survives `if not href or not title: continue`: a non-empty title and a non-empty href. */
  predicate IsCandidate(a: Anchor)
  {
    a.title != "" && a.href.Some? && a.href.value != ""
  }

  /** `re.search(pattern, title, re.IGNORECASE)` for a literal pattern. */
  predicate Matches(fold: char -> char, title: string, pattern: string)
  {
    Contains(Lower(fold, title), Lower(fold, pattern))
  }

  /** `any(re.search(p, title, re.IGNORECASE) for p in patterns)`, short-circuiting left to right. */
  predicate IsTarget(fold: char -> char, title: string, patterns: seq<string>)
  {
    |patterns| > 0 && (Matches(fold, title, patterns[0]) || IsTarget(fold, title, patterns[1..]))
  }

  /** A title is a target exactly when some pattern of the list matches it. */
  lemma {:induction false} IsTargetIff(fold: char -> char, title: string, patterns: seq<string>)
    ensures IsTarget(fold, title, patterns) <==> exists p :: p in patterns && Matches(fold, title, p)
  {
    if |patterns| > 0 {
      IsTargetIff(fold, title, patterns[1..]);
      assert patterns == [patterns[0]] + patterns[1..];
      forall p | p in patterns && Matches(fold, title, p)
        ensures IsTarget(fold, title, patterns)
      {
        if p != patterns[0] {
          assert p in patterns[1..];
        }
      }
    }
  }

  /** The order of the pattern list (and repetitions in it) do not change the verdict. */
  lemma PatternOrderIrrelevant(fold: char -> char, title: string, ps: seq<string>, qs: seq<string>)
    requires forall p :: p in ps <==> p in qs
    ensures IsTarget(fold, title, ps) == IsTarget(fold, title, qs)
  {
    IsTargetIff(fold, title, ps);
    IsTargetIff(fold, title, qs);
  }

  /**
   * Case does not matter: two titles that agree once lowered are targets of the same lists, so a
   * title in capitals is found exactly when its lower-case form is.
   */
  lemma {:induction false} TargetIgnoresCase(fold: char -> char, title: string, other: string, patterns: seq<string>)
    requires Lower(fold, title) == Lower(fold, other)
    ensures IsTarget(fold, title, patterns) == IsTarget(fold, other, patterns)
    decreases |patterns|
  {
    if |patterns| > 0 {
      TargetIgnoresCase(fold, title, other, patterns[1..]);
    }
  }

  /** A title that contains a pattern verbatim matches it, whatever the case mapping. */
  lemma LiteralOccurrenceMatches(fold: char -> char, title: string, pattern: string)
    requires Contains(title, pattern)
    ensures Matches(fold, title, pattern)
  {
    var i :| OccursAt(title, pattern, i);
    var lt, lp := Lower(fold, title), Lower(fold, pattern);
    assert OccursAt(title, pattern, i);
    assert 0 <= i <= |title| - |pattern|;
    LowerSlice(fold, title, i, i + |pattern|);
    assert lt[i..i + |lp|] == lp;
    assert OccursAt(lt, lp, i);
  }
}
