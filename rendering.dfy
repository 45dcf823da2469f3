/**
 * The shape of a rendered report: each collector contributes one named section whose
 * fields are either numbers or one-level nested objects of numbers. Histograms keyed by
 * a small integer are rendered under textual keys "<n><suffix>", e.g. "3_Materials".
 */
module Rendering {
  import opened Histogram

  /** A field of a section: a number field or a nested object of number fields. */
  datatype Field = Number(value: nat) | Object(entries: map<string, nat>)

  /** One named section of the report. */
  datatype Section = Section(name: string, fields: map<string, Field>)

  /** Every field is a zero or an empty object. */
  predicate ZeroFields(fields: map<string, Field>)
  {
    forall f :: f in fields ==> fields[f] == Number(0) || fields[f] == Object(map[])
  }

  /** Adding a zero or an empty object to all-zero fields keeps them all zero. */
  lemma ZeroFieldsUpdate(fields: map<string, Field>, f: string, v: Field)
    requires ZeroFields(fields) && (v == Number(0) || v == Object(map[]))
    ensures ZeroFields(fields[f := v])
  {
  }

  /** The rendering of an empty histogram is empty. */
  lemma RenderHistogramEmpty(suffix: string)
    ensures RenderHistogram(map[], suffix) == map[]
  {
    var r := RenderHistogram(map[], suffix);
    assert forall key :: key !in r;
  }

  /** The number stored under field f, zero when there is no such number field. */
  function NumberAt(fields: map<string, Field>, f: string): nat
  {
    if f in fields && fields[f].Number? then fields[f].value else 0
  }

  /** The nested object stored under field f, empty when there is no such object field. */
  function EntriesAt(fields: map<string, Field>, f: string): map<string, nat>
  {
    if f in fields && fields[f].Object? then fields[f].entries else map[]
  }

  /** The character of a decimal digit. */
  function Digit(d: nat): (c: char)
    requires d < 10
    ensures '0' <= c <= '9' && DigitValue(c) == d
  {
    ('0' as int + d) as char
  }

  /** The value of a decimal digit character. */
  function DigitValue(c: char): nat
  {
    if '0' <= c <= '9' then c as int - '0' as int else 0
  }

  /** The number a string of decimal digits denotes, most significant digit first. */
  function DecimalValue(s: string): nat
  {
    if s == [] then 0 else 10 * DecimalValue(s[..|s| - 1]) + DigitValue(s[|s| - 1])
  }

  /**
   * The decimal text of n, as printed by the "%i" conversion for a non-negative value:
   * digits only, with no leading zero.
   */
  function NatToString(n: nat): (s: string)
    ensures 1 <= |s|
    ensures forall i :: 0 <= i < |s| ==> '0' <= s[i] <= '9'
    ensures |s| == 1 <==> n < 10
    ensures 1 < |s| ==> s[0] != '0'
  {
    if n < 10 then [Digit(n)] else NatToString(n / 10) + [Digit(n % 10)]
  }

  /** The decimal text of n denotes n. */
  lemma {:induction false} NatToStringValue(n: nat)
    ensures DecimalValue(NatToString(n)) == n
  {
    if n >= 10 {
      var p := NatToString(n / 10);
      NatToStringValue(n / 10);
      assert (p + [Digit(n % 10)])[..|p|] == p;
    }
  }

  /** Distinct numbers print differently, since each text denotes its number. */
  lemma NatToStringInjective(a: nat, b: nat)
    requires NatToString(a) == NatToString(b)
    ensures a == b
  {
    NatToStringValue(a);
    NatToStringValue(b);
  }

  /** The key "<n><suffix>" under which a histogram entry for n is rendered. */
  function Label(n: nat, suffix: string): string
  {
    NatToString(n) + suffix
  }

  /** Distinct counts get distinct labels, so rendering never merges two histogram entries. */
  lemma LabelsDiffer(a: nat, b: nat, suffix: string)
    requires Label(a, suffix) == Label(b, suffix)
    ensures a == b
  {
    var la := Label(a, suffix);
    assert NatToString(a) == la[..|la| - |suffix|];
    assert NatToString(b) == la[..|la| - |suffix|];
    NatToStringInjective(a, b);
  }

  /** The same, for all pairs of counts at once. */
  lemma LabelInjective(suffix: string)
    ensures forall a: nat, b: nat :: Label(a, suffix) == Label(b, suffix) ==> a == b
  {
    forall a: nat, b: nat | Label(a, suffix) == Label(b, suffix)
      ensures a == b
    {
      LabelsDiffer(a, b, suffix);
    }
  }

  /** r holds exactly the entries of m, each under its label. */
  ghost predicate Relabels(m: map<nat, nat>, r: map<string, nat>, suffix: string)
  {
    && (forall n :: n in m ==> Label(n, suffix) in r && r[Label(n, suffix)] == m[n])
    && (forall key :: key in r ==> exists n :: n in m && key == Label(n, suffix))
  }

  /** The nested object holding one "<n><suffix>" entry per key n of the histogram. */
  function RenderHistogram(m: map<nat, nat>, suffix: string): (r: map<string, nat>)
    ensures Relabels(m, r, suffix)
  {
    LabelInjective(suffix);
    map n | n in m :: Label(n, suffix) := m[n]
  }

  /** Taking one count out of m and its label out of r keeps the relabelling. */
  lemma RelabelsRemove(m: map<nat, nat>, r: map<string, nat>, n: nat, suffix: string)
    requires Relabels(m, r, suffix) && n in m
    ensures Relabels(m - {n}, r - {Label(n, suffix)}, suffix)
  {
    var r' := r - {Label(n, suffix)};
    forall j | j in m - {n} ensures Label(j, suffix) in r' {
      if Label(j, suffix) == Label(n, suffix) { LabelsDiffer(j, n, suffix); }
    }
    forall key | key in r' ensures exists j :: j in m - {n} && key == Label(j, suffix) {
      var j :| j in m && key == Label(j, suffix);
      assert j in m - {n};
    }
  }

  /** Relabelling nothing gives nothing. */
  lemma RelabelsEmpty(m: map<nat, nat>, r: map<string, nat>, suffix: string)
    requires Relabels(m, r, suffix) && m == map[]
    ensures r == map[]
  {
    assert forall key :: key !in r;
  }

  /** One step of the sum: the entry for n and its labelled copy contribute the same amount. */
  lemma RelabelsSumStep(m: map<nat, nat>, r: map<string, nat>, n: nat, suffix: string)
    requires Relabels(m, r, suffix) && n in m
    requires Sum(r - {Label(n, suffix)}) == Sum(m - {n})
    ensures Sum(r) == Sum(m)
  {
    SumRemove(m, n);
    SumRemove(r, Label(n, suffix));
  }

  /** A relabelled histogram has the same sum. */
  lemma {:induction false} RelabelsSum(m: map<nat, nat>, r: map<string, nat>, suffix: string)
    requires Relabels(m, r, suffix)
    ensures Sum(r) == Sum(m)
    decreases |m|
  {
    if m == map[] {
      RelabelsEmpty(m, r, suffix);
    } else {
      var n :| n in m;
      RelabelsRemove(m, r, n, suffix);
      assert (m - {n}).Keys == m.Keys - {n};
      RelabelsSum(m - {n}, r - {Label(n, suffix)}, suffix);
      RelabelsSumStep(m, r, n, suffix);
    }
  }

  /**
   * A rendered histogram of the elements of a multiset: one "<k><suffix>" entry per
   * distinct element k, valued with k's multiplicity, and nothing else.
   */
  ghost predicate CountsRendered(r: map<string, nat>, counts: multiset<nat>, suffix: string)
  {
    && (forall k: nat :: k in counts ==> Label(k, suffix) in r && r[Label(k, suffix)] == counts[k])
    && (forall key :: key in r ==> exists k: nat :: k in counts && key == Label(k, suffix))
  }

  /**
   * When a histogram counts the elements of a multiset, its rendering holds one
   * "<k><suffix>" entry per distinct element k, valued with k's multiplicity, and
   * nothing else.
   */
  lemma RenderHistogramEntries(m: map<nat, nat>, counts: multiset<nat>, suffix: string)
    requires forall k :: k in m <==> k in counts
    requires forall k :: Get(m, k) == counts[k]
    ensures CountsRendered(RenderHistogram(m, suffix), counts, suffix)
  {
    var r := RenderHistogram(m, suffix);
    forall k: nat | k in counts
      ensures Label(k, suffix) in r && r[Label(k, suffix)] == counts[k]
    {
      assert k in m && Get(m, k) == counts[k];
    }
    forall key | key in r
      ensures exists k: nat :: k in counts && key == Label(k, suffix)
    {
      var k: nat :| k in m && key == Label(k, suffix);
      assert k in counts;
    }
  }

  /** Rendering keeps every count: the entries of the object sum to the histogram's sum. */
  lemma RenderHistogramSum(m: map<nat, nat>, suffix: string)
    ensures Sum(RenderHistogram(m, suffix)) == Sum(m)
  {
    RelabelsSum(m, RenderHistogram(m, suffix), suffix);
  }
}
