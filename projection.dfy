/**
 * The projection of one form_response record into a FormResponse (the
 * FormData of the older handler has the same five fields), shared by both
 * handlers: the profile fields fold into a name-to-text map, titles pair
 * with choices by index into a title-to-choice map, and the form id and
 * timestamps are copied. The Go code dereferences ProfileFields, Answers
 * and Form without a nil check and indexes Choice by the position of each
 * title; each of these panics when the element or the choice is missing.
 */
module Projection {
  import opened Wrappers
  import opened Envelope

  datatype FormResponse = FormResponse(
    id: string,
    profileInfo: map<string, string>,
    answers: map<string, string>,
    created: string,
    modified: string)

  /** The runtime panics the projection can raise. */
  datatype PanicReason =
    | NilProfileFields
    | NilAnswers
    | IndexOutOfRange(index: nat, length: nat)
    | NilForm
    | NilFormResponses

  /** A computation that completes or panics. */
  datatype Projected<T> = Done(value: T) | Panicked(reason: PanicReason)

  /**
   * Map assignment in a for loop: the pairs, in order, folded into a map,
   * each pair overwriting any earlier value of its key.
   */
  function Assoc<K(==), V>(pairs: seq<(K, V)>): map<K, V> {
    if pairs == [] then map[]
    else Assoc(pairs[..|pairs| - 1])[pairs[|pairs| - 1].0 := pairs[|pairs| - 1].1]
  }

  /** No pair after position i has the key of pair i. */
  ghost predicate IsLastOfKey<K, V>(pairs: seq<(K, V)>, i: int)
    requires 0 <= i < |pairs|
  {
    forall j :: i < j < |pairs| ==> pairs[j].0 != pairs[i].0
  }

  /**
   * m holds exactly the keys of the pairs, and each key maps to the value
   * of its last pair.
   */
  ghost predicate IsLastWriteWins<K, V>(pairs: seq<(K, V)>, m: map<K, V>) {
    && (forall i :: 0 <= i < |pairs| ==> pairs[i].0 in m)
    && (forall k :: k in m ==> exists i :: 0 <= i < |pairs| && pairs[i].0 == k)
    && (forall i :: 0 <= i < |pairs| && IsLastOfKey(pairs, i) ==> m[pairs[i].0] == pairs[i].1)
  }

  /** The fold keeps the last write of every key and invents no key. */
  lemma {:induction false} AssocLastWriteWins<K, V>(pairs: seq<(K, V)>)
    ensures IsLastWriteWins(pairs, Assoc(pairs))
    decreases |pairs|
  {
    if pairs != [] {
      var n := |pairs| - 1;
      var init := pairs[..n];
      AssocLastWriteWins(init);
      var m := Assoc(pairs);
      forall k | k in m ensures exists i :: 0 <= i < |pairs| && pairs[i].0 == k {
        if k != pairs[n].0 {
          var i :| 0 <= i < |init| && init[i].0 == k;
          assert pairs[i].0 == k;
        }
      }
      forall i | 0 <= i < |pairs| ensures pairs[i].0 in m {
        if i < n { assert init[i].0 == pairs[i].0; }
      }
      forall i | 0 <= i < |pairs| && IsLastOfKey(pairs, i) ensures m[pairs[i].0] == pairs[i].1 {
        if i < n {
          assert pairs[n].0 != pairs[i].0;
          assert IsLastOfKey(init, i);
        }
      }
    }
  }

  function ProfilePairs(infos: seq<ProfileInfo>): seq<(string, string)> {
    seq(|infos|, i requires 0 <= i < |infos| => (infos[i].name, infos[i].text))
  }

  /** The (title, choice) pairs for the titles only; later choices take no part. */
  function AnswerPairs(title: seq<string>, choice: seq<string>): seq<(string, string)>
    requires |title| <= |choice|
  {
    seq(|title|, i requires 0 <= i < |title| => (title[i], choice[i]))
  }

  /**
   * The reference projection of one record, with the panics in the order
   * the Go code meets them: ProfileFields, Answers, the Choice index, Form.
   */
  function ProjectRecordSpec(v: RawFormResponse): Projected<FormResponse> {
    if v.profileFields.None? then Panicked(NilProfileFields)
    else if v.answers.None? then Panicked(NilAnswers)
    else if |v.answers.value.choice| < |v.answers.value.title| then
      Panicked(IndexOutOfRange(|v.answers.value.choice|, |v.answers.value.choice|))
    else if v.form.None? then Panicked(NilForm)
    else Done(FormResponse(
      v.form.value.id,
      Assoc(ProfilePairs(v.profileFields.value.profileInfo)),
      Assoc(AnswerPairs(v.answers.value.title, v.answers.value.choice)),
      v.created,
      v.modified))
  }

  /** The reference projection of a list of records: the first panic, or every projection in order. */
  function ProjectAllSpec(records: seq<RawFormResponse>): Projected<seq<FormResponse>> {
    if records == [] then Done([])
    else match ProjectAllSpec(records[..|records| - 1])
      case Panicked(p) => Panicked(p)
      case Done(fs) =>
        match ProjectRecordSpec(records[|records| - 1])
        case Panicked(p) => Panicked(p)
        case Done(f) => Done(fs + [f])
  }

  /**
   * What the projection of one record promises: it completes exactly when
   * ProfileFields, Answers and Form are present and there are at least as
   * many choices as titles; the id is the form's id, not the record's own;
   * created and modified are copied; profile_info is name-to-text with the
   * last entry of a name winning; answers is title-to-choice by position,
   * with the last duplicate title winning.
   */
  lemma ProjectRecordProperties(v: RawFormResponse)
    ensures ProjectRecordSpec(v).Done? <==>
      v.profileFields.Some? && v.answers.Some? && v.form.Some?
      && |v.answers.value.title| <= |v.answers.value.choice|
    ensures ProjectRecordSpec(v).Done? ==>
      var f := ProjectRecordSpec(v).value;
      && f.id == v.form.value.id
      && f.created == v.created
      && f.modified == v.modified
      && IsLastWriteWins(ProfilePairs(v.profileFields.value.profileInfo), f.profileInfo)
      && IsLastWriteWins(AnswerPairs(v.answers.value.title, v.answers.value.choice), f.answers)
  {
    if ProjectRecordSpec(v).Done? {
      AssocLastWriteWins(ProfilePairs(v.profileFields.value.profileInfo));
      AssocLastWriteWins(AnswerPairs(v.answers.value.title, v.answers.value.choice));
    }
  }

  /** Choices beyond the number of titles are ignored. */
  lemma ExtraChoicesIgnored(v: RawFormResponse)
    requires v.answers.Some? && |v.answers.value.title| <= |v.answers.value.choice|
    ensures ProjectRecordSpec(v) ==
      ProjectRecordSpec(v.(answers := Some(v.answers.value.(choice := v.answers.value.choice[..|v.answers.value.title|]))))
  {
    var a := v.answers.value;
    assert AnswerPairs(a.title, a.choice) == AnswerPairs(a.title, a.choice[..|a.title|]);
  }

  /**
   * The list projection completes exactly when every record projects; it
   * then has one output per record, in the records' order. When it panics,
   * it is with the panic of the first record that does not project.
   */
  lemma {:induction false} ProjectAllProperties(records: seq<RawFormResponse>)
    ensures ProjectAllSpec(records).Done? <==>
      forall i :: 0 <= i < |records| ==> ProjectRecordSpec(records[i]).Done?
    ensures ProjectAllSpec(records).Done? ==>
      && |ProjectAllSpec(records).value| == |records|
      && forall i :: 0 <= i < |records| ==> ProjectAllSpec(records).value[i] == ProjectRecordSpec(records[i]).value
    ensures ProjectAllSpec(records).Panicked? ==>
      exists i :: 0 <= i < |records| && ProjectRecordSpec(records[i]) == Panicked(ProjectAllSpec(records).reason)
        && forall j :: 0 <= j < i ==> ProjectRecordSpec(records[j]).Done?
    decreases |records|
  {
    if records != [] {
      var n := |records| - 1;
      var init := records[..n];
      ProjectAllProperties(init);
      assert forall i :: 0 <= i < n ==> records[i] == init[i];
      if ProjectAllSpec(init).Panicked? {
        var i :| 0 <= i < |init| && ProjectRecordSpec(init[i]) == Panicked(ProjectAllSpec(init).reason)
          && forall j :: 0 <= j < i ==> ProjectRecordSpec(init[j]).Done?;
        assert ProjectRecordSpec(records[i]) == Panicked(ProjectAllSpec(records).reason);
      }
    }
  }

  /** Once a prefix of the records panics, the whole list panics the same way. */
  lemma {:induction false} ProjectAllPanicPersists(records: seq<RawFormResponse>, k: nat)
    requires k <= |records| && ProjectAllSpec(records[..k]).Panicked?
    ensures ProjectAllSpec(records) == ProjectAllSpec(records[..k])
    decreases |records|
  {
    if k < |records| {
      var n := |records| - 1;
      assert records[..n][..k] == records[..k];
      ProjectAllPanicPersists(records[..n], k);
    } else {
      assert records[..k] == records;
    }
  }

  /** The profile_info loop: assigns each entry's text under its name, in order. */
  method BuildProfileInfo(infos: seq<ProfileInfo>) returns (m: map<string, string>)
    ensures m == Assoc(ProfilePairs(infos))
    ensures IsLastWriteWins(ProfilePairs(infos), m)
  {
    m := map[];
    var i := 0;
    while i < |infos|
      invariant 0 <= i <= |infos|
      invariant m == Assoc(ProfilePairs(infos)[..i])
    {
      assert ProfilePairs(infos)[..i + 1][..i] == ProfilePairs(infos)[..i];
      m := m[infos[i].name := infos[i].text];
      i := i + 1;
    }
    assert ProfilePairs(infos)[..i] == ProfilePairs(infos);
    AssocLastWriteWins(ProfilePairs(infos));
  }

  /**
   * The answers loop: for each title i, assigns Choice[i] under it; the
   * index panics at the first title that has no choice.
   */
  method BuildAnswers(a: Answers) returns (r: Projected<map<string, string>>)
    ensures |a.choice| < |a.title| ==> r == Panicked(IndexOutOfRange(|a.choice|, |a.choice|))
    ensures |a.title| <= |a.choice| ==> r == Done(Assoc(AnswerPairs(a.title, a.choice)))
  {
    var m := map[];
    var i := 0;
    while i < |a.title|
      invariant 0 <= i <= |a.title| && i <= |a.choice|
      invariant m == Assoc(AnswerPairs(a.title[..i], a.choice))
    {
      if i >= |a.choice| {
        return Panicked(IndexOutOfRange(i, |a.choice|));
      }
      assert AnswerPairs(a.title[..i + 1], a.choice)[..i] == AnswerPairs(a.title[..i], a.choice);
      m := m[a.title[i] := a.choice[i]];
      i := i + 1;
    }
    assert a.title[..i] == a.title;
    return Done(m);
  }

  /** The body of the per-record loop of both handlers. */
  method ProjectRecord(v: RawFormResponse) returns (r: Projected<FormResponse>)
    ensures r == ProjectRecordSpec(v)
  {
    if v.profileFields.None? {
      return Panicked(NilProfileFields);
    }
    var profInfo := BuildProfileInfo(v.profileFields.value.profileInfo);
    if v.answers.None? {
      return Panicked(NilAnswers);
    }
    var answers := BuildAnswers(v.answers.value);
    if answers.Panicked? {
      return Panicked(answers.reason);
    }
    if v.form.None? {
      return Panicked(NilForm);
    }
    return Done(FormResponse(v.form.value.id, profInfo, answers.value, v.created, v.modified));
  }

  /** The per-record loop of both handlers: projects each record and appends it. */
  method ProjectRecords(records: seq<RawFormResponse>) returns (r: Projected<seq<FormResponse>>)
    ensures r == ProjectAllSpec(records)
  {
    var out := [];
    var i := 0;
    while i < |records|
      invariant 0 <= i <= |records|
      invariant ProjectAllSpec(records[..i]) == Done(out)
    {
      assert records[..i + 1][..i] == records[..i];
      var f := ProjectRecord(records[i]);
      if f.Panicked? {
        ProjectAllPanicPersists(records, i + 1);
        return Panicked(f.reason);
      }
      out := out + [f.value];
      i := i + 1;
    }
    assert records[..i] == records;
    return Done(out);
  }
}
