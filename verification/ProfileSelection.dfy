/**
 * The selection of profile-selection.ts: eligible claims by subject, the four subjects with the strongest
 * signal, then whole claims in the order of the comparator within the budgets of claims and characters.
 * The finished selection accounts for every character it emits, and no candidate of a chosen subject that was
 * left out could still be added whole.
 */
module ProfileSelection {
  import opened Utf16
  import opened Wrappers

  const MAX_SUBJECTS := 4
  const MAX_CHARACTERS := 6000
  const MAX_CLAIMS_PER_SUBJECT := 20
  const MAX_SUBJECT_CHARACTERS := 4000
  const DORMANCY_MILLISECONDS := 60 * 24 * 60 * 60 * 1000

  datatype Priority = CurrentAuthor | ReplySubject | ExplicitMention | RetrievalRelated
  datatype Kind = Profile | Preference | Statement | FamilyShared | Episode
  datatype Origin = Personal | Family | Group

  type Subject = nat
  type MemoryRef = nat

  /** `order` fields are places in the collation of the strings they stand for. */
  datatype Claim = Claim(
    ref: MemoryRef, subject: Subject, priority: Priority, kind: Kind, attribute: Option<Text>, attributeOrder: nat,
    style: bool, confirmed: bool, origin: Origin, originName: Text, originLabel: Text, content: Text, updated: int,
    eligible: bool, active: bool, normal: bool, verifiedAt: Option<int>)

  // Eligibility and order

  predicate IsDormant(c: Claim, now: int) { c.verifiedAt == None || now - c.verifiedAt.value >= DORMANCY_MILLISECONDS }

  predicate Eligible(c: Claim, now: int) {
    c.eligible && c.active && c.normal && c.kind != Episode && !IsDormant(c, now)
  }

  function PriorityRank(p: Priority): nat {
    match p case CurrentAuthor => 0 case ReplySubject => 1 case ExplicitMention => 2 case RetrievalRelated => 3
  }

  function KindRank(k: Kind): nat {
    match k case Profile => 0 case Preference => 1 case Statement => 2 case FamilyShared => 3 case Episode => 4
  }

  function OriginRank(o: Origin): nat { match o case Personal => 0 case Family => 1 case Group => 2 }

  function Flag(b: bool): nat { if b then 0 else 1 }

  /** What the comparator compares, first difference first. */
  function Key(c: Claim): seq<int> {
    [KindRank(c.kind), Flag(c.style), Flag(c.attribute.Some?), c.attributeOrder, Flag(c.confirmed), OriginRank(c.origin),
     -c.updated, c.ref]
  }

  predicate Less(a: seq<int>, b: seq<int>)
    requires |a| == |b|
  {
    a != [] && (a[0] < b[0] || (a[0] == b[0] && Less(a[1..], b[1..])))
  }

  predicate GoesBefore(a: Claim, b: Claim) { Less(Key(a), Key(b)) }

  function InsertBy<T(!new)>(sorted: seq<T>, x: T, before: (T, T) -> bool): seq<T> {
    if sorted == [] || !before(x, sorted[|sorted| - 1]) then sorted + [x]
    else InsertBy(sorted[..|sorted| - 1], x, before) + [sorted[|sorted| - 1]]
  }

  /** A stable sort. */
  function SortBy<T(!new)>(s: seq<T>, before: (T, T) -> bool): seq<T> {
    if s == [] then [] else InsertBy(SortBy(s[..|s| - 1], before), s[|s| - 1], before)
  }

  // Groups and versions

  function Filter(s: seq<Claim>, keep: Claim -> bool): seq<Claim> {
    if s == [] then [] else Filter(s[..|s| - 1], keep) + if keep(s[|s| - 1]) then [s[|s| - 1]] else []
  }

  lemma {:induction false} Filtered(s: seq<Claim>, keep: Claim -> bool, c: Claim)
    ensures c in Filter(s, keep) <==> c in s && keep(c)
    decreases |s|
  {
    if s != [] {
      Filtered(s[..|s| - 1], keep, c);
      assert s == s[..|s| - 1] + [s[|s| - 1]];
    }
  }

  /** The subjects in the order of their first claim. */
  function Subjects(claims: seq<Claim>): (r: seq<Subject>)
    ensures forall i, j :: 0 <= i < j < |r| ==> r[i] != r[j]
    ensures forall x :: x in r <==> exists i :: 0 <= i < |claims| && claims[i].subject == x
  {
    if claims == [] then []
    else
      var rest, last := Subjects(claims[..|claims| - 1]), claims[|claims| - 1].subject;
      assert forall i :: 0 <= i < |claims| - 1 ==> claims[i] == claims[..|claims| - 1][i];
      if last in rest then rest else rest + [last]
  }

  function Of(claims: seq<Claim>, subject: Subject): seq<Claim> { Filter(claims, (c: Claim) => c.subject == subject) }

  function Best(claims: seq<Claim>): nat {
    if claims == [] then 4
    else
      var rest, last := Best(claims[..|claims| - 1]), PriorityRank(claims[|claims| - 1].priority);
      if last < rest then last else rest
  }

  predicate SubjectBefore(eligible: seq<Claim>, a: Subject, b: Subject) {
    Best(Of(eligible, a)) < Best(Of(eligible, b)) || (Best(Of(eligible, a)) == Best(Of(eligible, b)) && a < b)
  }

  function OrderedSubjects(eligible: seq<Claim>): seq<Subject> {
    var sorted := SortBy(Subjects(eligible), (a: Subject, b: Subject) => SubjectBefore(eligible, a, b));
    if |sorted| <= MAX_SUBJECTS then sorted else sorted[..MAX_SUBJECTS]
  }

  function Put(s: seq<Claim>, c: Claim): seq<Claim> {
    if s == [] then [c] else if s[0].ref == c.ref then [c] + s[1..] else [s[0]] + Put(s[1..], c)
  }

  /** A `Map` keyed by reference: the place of the first claim, the value of the last. */
  function Deduplicated(claims: seq<Claim>): seq<Claim> {
    if claims == [] then [] else Put(Deduplicated(claims[..|claims| - 1]), claims[|claims| - 1])
  }

  predicate DistinctRefs(s: seq<Claim>) { forall i, j :: 0 <= i < j < |s| ==> s[i].ref != s[j].ref }

  function Refs(s: seq<Claim>): set<MemoryRef> { set i | 0 <= i < |s| :: s[i].ref }

  lemma {:induction false} PutOk(s: seq<Claim>, c: Claim)
    requires DistinctRefs(s)
    ensures DistinctRefs(Put(s, c)) && Refs(Put(s, c)) == Refs(s) + {c.ref}
    ensures forall i :: 0 <= i < |Put(s, c)| ==> Put(s, c)[i] == c || Put(s, c)[i] in s
    decreases |s|
  {
    if s == [] {
      RefsHead([c]);
    } else if s[0].ref == c.ref {
      RefsHead(s);
      RefsHead([c] + s[1..]);
    } else {
      var rest := Put(s[1..], c);
      PutOk(s[1..], c);
      RefsHead(s);
      RefsHead([s[0]] + rest);
      assert ([s[0]] + rest)[1..] == rest;
      forall i | 0 <= i < |rest| ensures rest[i].ref != s[0].ref {
        assert rest[i] == c || rest[i] in s[1..];
      }
    }
  }

  lemma RefsHead(s: seq<Claim>)
    requires s != []
    ensures Refs(s) == {s[0].ref} + Refs(s[1..])
  {
    forall i | 0 < i < |s| ensures s[i].ref in Refs(s[1..]) {
      assert s[1..][i - 1] == s[i];
    }
    forall i | 0 <= i < |s| - 1 ensures s[1..][i].ref in Refs(s) {
      assert s[1..][i] == s[i + 1];
    }
  }

  lemma RefsLast(s: seq<Claim>)
    requires s != []
    ensures Refs(s) == Refs(s[..|s| - 1]) + {s[|s| - 1].ref}
  {
  }

  /** Every reference is there once. */
  lemma {:induction false} DeduplicatedOk(claims: seq<Claim>)
    ensures DistinctRefs(Deduplicated(claims)) && Refs(Deduplicated(claims)) == Refs(claims)
    ensures forall c :: c in Deduplicated(claims) ==> c in claims
    decreases |claims|
  {
    if claims != [] {
      var rest, last := claims[..|claims| - 1], claims[|claims| - 1];
      assert claims == rest + [last];
      RefsLast(claims);
      DeduplicatedOk(rest);
      PutOk(Deduplicated(rest), last);
    }
  }

  // Budgets

  const OPEN: Text := [0x2d, 0x20, 0x5b]
  const COLON: Text := [0x3a, 0x20]
  const CLOSE: Text := [0x5d, 0x20]

  function Render(c: Claim): Text {
    OPEN + c.originName + COLON + c.originLabel + CLOSE
    + (if c.attribute == None then [] else c.attribute.value + COLON) + c.content
  }

  function Rendered(claims: seq<Claim>): nat {
    if claims == [] then 0 else Rendered(claims[..|claims| - 1]) + |Render(claims[|claims| - 1])|
  }

  /** `total` counts the subjects before and the claims of this one. */
  predicate StaysOut(claims: seq<Claim>, total: nat, c: Claim) {
    || |claims| >= MAX_CLAIMS_PER_SUBJECT
    || |Render(c)| > MAX_SUBJECT_CHARACTERS
    || Rendered(claims) + |Render(c)| > MAX_SUBJECT_CHARACTERS
    || total + |Render(c)| > MAX_CHARACTERS
  }

  /** The claims a subject gets when `before` characters are used already. */
  function Fill(before: nat, claims: seq<Claim>): seq<Claim> {
    if claims == [] then []
    else
      var taken, last := Fill(before, claims[..|claims| - 1]), claims[|claims| - 1];
      if StaysOut(taken, before + Rendered(taken), last) then taken else taken + [last]
  }

  datatype Selected = Selected(subject: Subject, claims: seq<Claim>)

  function Total(subjects: seq<Selected>): nat {
    if subjects == [] then 0 else Total(subjects[..|subjects| - 1]) + Rendered(subjects[|subjects| - 1].claims)
  }

  function CandidatesOf(eligible: seq<Claim>, subject: Subject): seq<Claim> {
    Deduplicated(SortBy(Of(eligible, subject), (a: Claim, b: Claim) => GoesBefore(a, b)))
  }

  function AddSubject(done: seq<Selected>, eligible: seq<Claim>, subject: Subject): seq<Selected> {
    var claims := Fill(Total(done), CandidatesOf(eligible, subject));
    if claims == [] then done else done + [Selected(subject, claims)]
  }

  function AddSubjects(eligible: seq<Claim>, subjects: seq<Subject>): seq<Selected> {
    if subjects == [] then []
    else AddSubject(AddSubjects(eligible, subjects[..|subjects| - 1]), eligible, subjects[|subjects| - 1])
  }

  lemma {:induction false} FillOk(before: nat, claims: seq<Claim>)
    requires before <= MAX_CHARACTERS && DistinctRefs(claims)
    ensures var taken := Fill(before, claims);
            && |taken| <= MAX_CLAIMS_PER_SUBJECT
            && Rendered(taken) <= MAX_SUBJECT_CHARACTERS
            && before + Rendered(taken) <= MAX_CHARACTERS
            && DistinctRefs(taken)
            && (forall c :: c in taken ==> c in claims)
    decreases |claims|
  {
    if claims != [] {
      var rest, last := claims[..|claims| - 1], claims[|claims| - 1];
      assert claims == rest + [last];
      FillOk(before, rest);
      var taken := Fill(before, rest);
      assert (taken + [last])[..|taken|] == taken;
      forall i | 0 <= i < |taken| ensures taken[i].ref != last.ref {
        assert taken[i] in rest;
      }
    }
  }

  lemma {:induction false} RenderedPart(claims: seq<Claim>, n: nat)
    requires n <= |claims|
    ensures Rendered(claims[..n]) <= Rendered(claims)
    decreases |claims|
  {
    if n < |claims| {
      assert claims[..|claims| - 1][..n] == claims[..n];
      RenderedPart(claims[..|claims| - 1], n);
    } else {
      assert claims[..n] == claims;
    }
  }

  /** A claim passed over would not fit the finished list of its subject either. */
  lemma {:induction false} FillMaximal(before: nat, claims: seq<Claim>, c: Claim)
    requires c in claims && c !in Fill(before, claims)
    ensures var taken := Fill(before, claims); StaysOut(taken, before + Rendered(taken), c)
    decreases |claims|
  {
    var rest, last := claims[..|claims| - 1], claims[|claims| - 1];
    assert claims == rest + [last];
    var taken := Fill(before, rest);
    var more := Fill(before, claims);
    assert more == taken || (more == taken + [last] && more[..|taken|] == taken);
    RenderedPart(more, |taken|);
    assert more[..|taken|] == taken;
    if StaysOut(taken, before + Rendered(taken), last) && c == last {
    } else {
      assert c != last by { if !StaysOut(taken, before + Rendered(taken), last) { assert last in more; } }
      FillMaximal(before, rest, c);
    }
  }

  predicate SubjectOk(s: Selected, eligible: seq<Claim>) {
    && 1 <= |s.claims| <= 20
    && Rendered(s.claims) <= 4_000
    && DistinctRefs(s.claims)
    && forall c :: c in s.claims ==> c in eligible && c.subject == s.subject
  }

  predicate EachOnce(subjects: seq<Selected>) {
    forall i, j :: 0 <= i < j < |subjects| ==> subjects[i].subject != subjects[j].subject
  }

  predicate SelectionOk(subjects: seq<Selected>, eligible: seq<Claim>) {
    && Total(subjects) <= 6_000
    && EachOnce(subjects)
    && (forall i :: 0 <= i < |subjects| ==> SubjectOk(subjects[i], eligible))
  }

  lemma {:induction false} InsertByHolds<T(!new)>(sorted: seq<T>, x: T, before: (T, T) -> bool)
    ensures multiset(InsertBy(sorted, x, before)) == multiset(sorted) + multiset{x}
    decreases |sorted|
  {
    if sorted != [] && before(x, sorted[|sorted| - 1]) {
      assert sorted == sorted[..|sorted| - 1] + [sorted[|sorted| - 1]];
      InsertByHolds(sorted[..|sorted| - 1], x, before);
    }
  }

  lemma {:induction false} SortByHolds<T(!new)>(s: seq<T>, before: (T, T) -> bool)
    ensures multiset(SortBy(s, before)) == multiset(s) && |SortBy(s, before)| == |s|
    ensures forall x :: x in SortBy(s, before) <==> x in s
    decreases |s|
  {
    if s != [] {
      assert s == s[..|s| - 1] + [s[|s| - 1]];
      SortByHolds(s[..|s| - 1], before);
      InsertByHolds(SortBy(s[..|s| - 1], before), s[|s| - 1], before);
    }
    assert |multiset(SortBy(s, before))| == |multiset(s)|;
    forall x ensures x in SortBy(s, before) <==> x in s {
      assert x in SortBy(s, before) <==> x in multiset(SortBy(s, before));
    }
  }

  lemma CandidatesOk(eligible: seq<Claim>, subject: Subject)
    ensures DistinctRefs(CandidatesOf(eligible, subject))
    ensures forall c :: c in CandidatesOf(eligible, subject) ==> c in eligible && c.subject == subject
    ensures Refs(CandidatesOf(eligible, subject)) == Refs(Of(eligible, subject))
  {
    var own := Of(eligible, subject);
    var before := (a: Claim, b: Claim) => GoesBefore(a, b);
    forall c ensures c in own <==> c in eligible && c.subject == subject {
      Filtered(eligible, (c: Claim) => c.subject == subject, c);
    }
    SortByHolds(own, before);
    DeduplicatedOk(SortBy(own, before));
    SameRefs(own, SortBy(own, before));
  }

  lemma SameRefs(a: seq<Claim>, b: seq<Claim>)
    requires forall c :: c in a <==> c in b
    ensures Refs(a) == Refs(b)
  {
    forall i | 0 <= i < |a| ensures a[i].ref in Refs(b) {
      assert a[i] in b;
    }
    forall i | 0 <= i < |b| ensures b[i].ref in Refs(a) {
      assert b[i] in a;
    }
  }

  lemma {:induction false} OneMoreSubject(done: seq<Selected>, eligible: seq<Claim>, s: Selected)
    requires SelectionOk(done, eligible) && SubjectOk(s, eligible) && Total(done) + Rendered(s.claims) <= MAX_CHARACTERS
    requires forall i :: 0 <= i < |done| ==> done[i].subject != s.subject
    ensures SelectionOk(done + [s], eligible)
  {
    assert (done + [s])[..|done|] == done;
  }

  predicate Distinct<T(==)>(s: seq<T>) { forall i, j :: 0 <= i < j < |s| ==> s[i] != s[j] }

  lemma {:induction false} SubjectsKnown(eligible: seq<Claim>, subjects: seq<Subject>)
    ensures forall i :: 0 <= i < |AddSubjects(eligible, subjects)| ==> AddSubjects(eligible, subjects)[i].subject in subjects
    decreases |subjects|
  {
    if subjects != [] {
      assert subjects == subjects[..|subjects| - 1] + [subjects[|subjects| - 1]];
      SubjectsKnown(eligible, subjects[..|subjects| - 1]);
    }
  }

  /** Every budget holds, every claim is eligible and stands once, under its own subject, which stands once. */
  lemma {:induction false} SelectedOk(eligible: seq<Claim>, subjects: seq<Subject>)
    requires Distinct(subjects)
    ensures SelectionOk(AddSubjects(eligible, subjects), eligible)
    ensures |AddSubjects(eligible, subjects)| <= |subjects|
    decreases |subjects|
  {
    if subjects != [] {
      var rest, subject := subjects[..|subjects| - 1], subjects[|subjects| - 1];
      var done := AddSubjects(eligible, rest);
      SelectedOk(eligible, rest);
      SubjectsKnown(eligible, rest);
      forall i | 0 <= i < |done| ensures done[i].subject != subject { assert done[i].subject in rest; }
      CandidatesOk(eligible, subject);
      FillOk(Total(done), CandidatesOf(eligible, subject));
      var claims := Fill(Total(done), CandidatesOf(eligible, subject));
      if claims != [] { OneMoreSubject(done, eligible, Selected(subject, claims)); }
    }
  }

  /** The claims a subject got, none when it was dropped. */
  function ClaimsOf(selection: seq<Selected>, subject: Subject): seq<Claim> {
    if selection == [] then []
    else if selection[|selection| - 1].subject == subject then selection[|selection| - 1].claims
    else ClaimsOf(selection[..|selection| - 1], subject)
  }

  lemma {:induction false} UnknownSubject(selection: seq<Selected>, subject: Subject)
    requires forall i :: 0 <= i < |selection| ==> selection[i].subject != subject
    ensures ClaimsOf(selection, subject) == []
    decreases |selection|
  {
    if selection != [] { UnknownSubject(selection[..|selection| - 1], subject); }
  }

  lemma OneMoreClaims(done: seq<Selected>, s: Selected, subject: Subject)
    ensures ClaimsOf(done + [s], subject) == if s.subject == subject then s.claims else ClaimsOf(done, subject)
    ensures Total(done + [s]) == Total(done) + Rendered(s.claims)
  {
    assert (done + [s])[..|done|] == done;
  }

  lemma NewSubject(eligible: seq<Claim>, rest: seq<Subject>, subject: Subject)
    requires subject !in rest
    ensures ClaimsOf(AddSubjects(eligible, rest), subject) == []
  {
    var done := AddSubjects(eligible, rest);
    SubjectsKnown(eligible, rest);
    forall i | 0 <= i < |done| ensures done[i].subject != subject { assert done[i].subject in rest; }
    UnknownSubject(done, subject);
  }

  /** The subject's own step gives the claim or has no room for it. */
  lemma OwnStep(done: seq<Selected>, eligible: seq<Claim>, subject: Subject, c: Claim)
    requires c in CandidatesOf(eligible, subject) && ClaimsOf(done, subject) == []
    ensures var selection := AddSubject(done, eligible, subject);
            c in ClaimsOf(selection, subject) || StaysOut(ClaimsOf(selection, subject), Total(selection), c)
  {
    var candidates := CandidatesOf(eligible, subject);
    var claims := Fill(Total(done), candidates);
    OneMoreClaims(done, Selected(subject, claims), subject);
    if c !in claims { FillMaximal(Total(done), candidates, c); }
  }

  /** A candidate of a chosen subject is emitted, or the finished selection has no room for it. */
  lemma {:induction false} NothingElseFits(eligible: seq<Claim>, subjects: seq<Subject>, subject: Subject, c: Claim)
    requires subject in subjects && c in CandidatesOf(eligible, subject) && Distinct(subjects)
    ensures var selection := AddSubjects(eligible, subjects);
            c in ClaimsOf(selection, subject) || StaysOut(ClaimsOf(selection, subject), Total(selection), c)
    decreases |subjects|
  {
    var rest, last := subjects[..|subjects| - 1], subjects[|subjects| - 1];
    assert subjects == rest + [last];
    var done := AddSubjects(eligible, rest);
    if subject == last {
      NewSubject(eligible, rest, subject);
      OwnStep(done, eligible, subject, c);
    } else {
      NothingElseFits(eligible, rest, subject, c);
      OtherStep(done, eligible, last, subject);
    }
  }

  lemma OtherStep(done: seq<Selected>, eligible: seq<Claim>, last: Subject, subject: Subject)
    requires last != subject
    ensures ClaimsOf(AddSubject(done, eligible, last), subject) == ClaimsOf(done, subject)
    ensures Total(AddSubject(done, eligible, last)) >= Total(done)
  {
    OneMoreClaims(done, Selected(last, Fill(Total(done), CandidatesOf(eligible, last))), subject);
  }

  // The order of what is emitted

  predicate InOrder(s: seq<Claim>) { forall i, j :: 0 <= i < j < |s| ==> !GoesBefore(s[j], s[i]) }

  /** The comparison of keys is a total order. */
  lemma {:induction false} LessOrders(a: seq<int>, b: seq<int>, c: seq<int>)
    requires |a| == |b| == |c|
    ensures Less(a, b) ==> !Less(b, a)
    ensures !Less(a, b) && !Less(b, c) ==> !Less(a, c)
    ensures a != b ==> Less(a, b) || Less(b, a)
    decreases |a|
  {
    if a != [] {
      LessOrders(a[1..], b[1..], c[1..]);
      assert a == [a[0]] + a[1..] && b == [b[0]] + b[1..];
    } else {
      assert a == b;
    }
  }

  /** No element goes before an earlier one. */
  predicate Ordered<T(!new)>(s: seq<T>, before: (T, T) -> bool) {
    forall i, j :: 0 <= i < j < |s| ==> !before(s[j], s[i])
  }

  /** A comparison that can sort: what is behind something is behind all that stands before it. */
  ghost predicate Sorts<T(!new)>(before: (T, T) -> bool) {
    && (forall a, b :: before(a, b) ==> !before(b, a))
    && (forall a, b, c :: !before(a, b) && !before(b, c) ==> !before(a, c))
  }

  lemma {:induction false} InsertOrdered<T(!new)>(sorted: seq<T>, x: T, before: (T, T) -> bool)
    requires Sorts(before) && Ordered(sorted, before)
    ensures Ordered(InsertBy(sorted, x, before), before)
    ensures forall i :: 0 <= i < |InsertBy(sorted, x, before)| ==>
              InsertBy(sorted, x, before)[i] == x || InsertBy(sorted, x, before)[i] in sorted
    decreases |sorted|
  {
    if sorted != [] {
      var rest, last := sorted[..|sorted| - 1], sorted[|sorted| - 1];
      if before(x, last) {
        var more := InsertBy(rest, x, before);
        InsertOrdered(rest, x, before);
        forall i | 0 <= i < |more| ensures !before(last, more[i]) {
          assert more[i] == x || more[i] in rest;
        }
      } else {
        forall i | 0 <= i < |sorted| ensures !before(x, sorted[i]) {
          assert i < |sorted| - 1 ==> !before(last, sorted[i]);
        }
      }
    }
  }

  lemma {:induction false} SortOrdered<T(!new)>(s: seq<T>, before: (T, T) -> bool)
    requires Sorts(before)
    ensures Ordered(SortBy(s, before), before)
    decreases |s|
  {
    if s != [] {
      SortOrdered(s[..|s| - 1], before);
      InsertOrdered(SortBy(s[..|s| - 1], before), s[|s| - 1], before);
    }
  }

  lemma ClaimsSort()
    ensures Sorts((a: Claim, b: Claim) => GoesBefore(a, b))
  {
    forall a: Claim, b: Claim, c: Claim
      ensures GoesBefore(a, b) ==> !GoesBefore(b, a)
      ensures !GoesBefore(a, b) && !GoesBefore(b, c) ==> !GoesBefore(a, c)
    {
      LessOrders(Key(a), Key(b), Key(c));
    }
  }

  lemma SortInOrder(s: seq<Claim>)
    ensures InOrder(SortBy(s, (a: Claim, b: Claim) => GoesBefore(a, b)))
  {
    var before := (a: Claim, b: Claim) => GoesBefore(a, b);
    ClaimsSort();
    SortOrdered(s, before);
    forall i, j | 0 <= i < j < |SortBy(s, before)| ensures !GoesBefore(SortBy(s, before)[j], SortBy(s, before)[i]) {
      assert !before(SortBy(s, before)[j], SortBy(s, before)[i]);
    }
  }

  // The choice of subjects

  lemma {:induction false} CountedOnce<T>(s: seq<T>, x: T)
    requires Distinct(s)
    ensures multiset(s)[x] <= 1
    decreases |s|
  {
    if s != [] {
      var rest, last := s[..|s| - 1], s[|s| - 1];
      assert s == rest + [last];
      CountedOnce(rest, x);
      if x == last { assert x !in rest; }
    }
  }

  lemma SameCounts<T>(s: seq<T>, t: seq<T>)
    requires multiset(s) == multiset(t) && Distinct(s)
    ensures Distinct(t)
  {
    forall i, j | 0 <= i < j < |t| ensures t[i] != t[j] {
      if t[i] == t[j] {
        var before, after := t[..j], t[j..];
        assert t == before + after && before[i] == t[i] && after[0] == t[j];
        assert multiset(t)[t[i]] == multiset(before)[t[i]] + multiset(after)[t[i]];
        CountedOnce(s, t[i]);
      }
    }
  }

  lemma FirstOnes<T(!new)>(sorted: seq<T>, n: nat, before: (T, T) -> bool)
    requires Ordered(sorted, before) && n <= |sorted|
    ensures Ordered(sorted[..n], before) && forall x :: x in sorted[..n] ==> x in sorted
    ensures forall x, y :: x in sorted && x !in sorted[..n] && y in sorted[..n] ==> !before(x, y)
  {
    var chosen := sorted[..n];
    forall x, y | x in sorted && x !in chosen && y in chosen ensures !before(x, y) {
      var j :| 0 <= j < |sorted| && sorted[j] == x;
      var i :| 0 <= i < n && chosen[i] == y;
      assert j < n ==> x in chosen;
      assert sorted[i] == y;
    }
  }

  lemma SubjectsSorted(eligible: seq<Claim>) returns (sorted: seq<Subject>)
    ensures var before := (a: Subject, b: Subject) => SubjectBefore(eligible, a, b);
            sorted == SortBy(Subjects(eligible), before) && Ordered(sorted, before)
    ensures Distinct(sorted) && forall x :: x in sorted <==> x in Subjects(eligible)
  {
    var before := (a: Subject, b: Subject) => SubjectBefore(eligible, a, b);
    sorted := SortBy(Subjects(eligible), before);
    SortOrdered(Subjects(eligible), before);
    SortByHolds(Subjects(eligible), before);
    SameCounts(Subjects(eligible), sorted);
  }

  /** The chosen subjects are different ones, and no subject passed over has a stronger signal than a chosen one. */
  lemma SubjectsFirst(eligible: seq<Claim>)
    ensures Distinct(OrderedSubjects(eligible)) && |OrderedSubjects(eligible)| <= MAX_SUBJECTS
    ensures Strongest(eligible)
  {
    var before := (a: Subject, b: Subject) => SubjectBefore(eligible, a, b);
    var sorted := SubjectsSorted(eligible);
    var n := if |sorted| <= MAX_SUBJECTS then |sorted| else MAX_SUBJECTS;
    var chosen := OrderedSubjects(eligible);
    assert chosen == sorted[..n];
    FirstOnes(sorted, n, before);
    StrongestIs(eligible, sorted, chosen, before);
  }

  lemma StrongestIs(eligible: seq<Claim>, sorted: seq<Subject>, chosen: seq<Subject>, before: (Subject, Subject) -> bool)
    requires chosen == OrderedSubjects(eligible) && Ordered(chosen, before)
    requires forall a, b :: before(a, b) <==> SubjectBefore(eligible, a, b)
    requires forall x :: x in sorted <==> x in Subjects(eligible)
    requires forall x :: x in chosen ==> x in sorted
    requires |chosen| < MAX_SUBJECTS ==> chosen == sorted
    requires |chosen| <= MAX_SUBJECTS
    requires forall x, y :: x in sorted && x !in chosen && y in chosen ==> !before(x, y)
    ensures Strongest(eligible)
  {
    forall i, j | 0 <= i < j < |chosen| ensures !SubjectBefore(eligible, chosen[j], chosen[i]) {
      assert !before(chosen[j], chosen[i]);
    }
    forall passed, x | passed in Subjects(eligible) && passed !in chosen && x in chosen
      ensures !SubjectBefore(eligible, passed, x)
    {
      assert !before(passed, x);
    }
  }

  /** The chosen subjects have claims, stand by signal, and only a full choice passes over one, behind all of it. */
  ghost predicate Strongest(eligible: seq<Claim>) {
    var all, chosen := Subjects(eligible), OrderedSubjects(eligible);
    && (forall x :: x in chosen ==> x in all)
    && (forall i, j :: 0 <= i < j < |chosen| ==> !SubjectBefore(eligible, chosen[j], chosen[i]))
    && (forall passed :: passed in all && passed !in chosen ==> |chosen| == MAX_SUBJECTS)
    && (forall passed, x :: passed in all && passed !in chosen && x in chosen ==> !SubjectBefore(eligible, passed, x))
  }

  /** Every candidate of a chosen subject is emitted, or has no room in the finished selection. */
  ghost predicate Maximal(eligible: seq<Claim>, chosen: seq<Subject>, selection: seq<Selected>) {
    forall x, c :: x in chosen && c in CandidatesOf(eligible, x) ==>
      c in ClaimsOf(selection, x) || StaysOut(ClaimsOf(selection, x), Total(selection), c)
  }

  lemma SelectionMaximal(eligible: seq<Claim>, chosen: seq<Subject>)
    requires Distinct(chosen)
    ensures Maximal(eligible, chosen, AddSubjects(eligible, chosen))
  {
    forall x, c | x in chosen && c in CandidatesOf(eligible, x)
      ensures c in ClaimsOf(AddSubjects(eligible, chosen), x)
              || StaysOut(ClaimsOf(AddSubjects(eligible, chosen), x), Total(AddSubjects(eligible, chosen)), c)
    {
      NothingElseFits(eligible, chosen, x, c);
    }
  }

  function Keys(s: seq<Claim>): seq<seq<int>> { seq(|s|, i requires 0 <= i < |s| => Key(s[i])) }

  predicate Increasing(keys: seq<seq<int>>) {
    && (forall i :: 0 <= i < |keys| ==> |keys[i]| == 8)
    && (forall i, j :: 0 <= i < j < |keys| ==> Less(keys[i], keys[j]))
  }

  /** The first place of a reference. */
  function FirstOf(s: seq<Claim>, ref: MemoryRef): (k: nat)
    ensures k <= |s| && (k < |s| ==> s[k].ref == ref) && forall i :: 0 <= i < k ==> s[i].ref != ref
  {
    if s == [] then 0
    else
      var front := s[..|s| - 1];
      var k := FirstOf(front, ref);
      assert forall i :: 0 <= i < |front| ==> front[i] == s[i];
      if k < |front| || s[|s| - 1].ref == ref then k else |s|
  }

  /** The last place of a reference. */
  function LastOf(s: seq<Claim>, ref: MemoryRef): (k: nat)
    ensures k <= |s| && (k < |s| ==> s[k].ref == ref && forall i :: k < i < |s| ==> s[i].ref != ref)
    ensures k == |s| ==> forall i :: 0 <= i < |s| ==> s[i].ref != ref
  {
    if s == [] then 0
    else if s[|s| - 1].ref == ref then |s| - 1
    else
      var front := s[..|s| - 1];
      assert forall i :: 0 <= i < |front| ==> front[i] == s[i];
      var k := LastOf(front, ref);
      if k < |front| then k else |s|
  }

  lemma {:induction false} PutAt(s: seq<Claim>, c: Claim, k: nat)
    requires DistinctRefs(s) && k < |s| && s[k].ref == c.ref
    ensures Put(s, c) == s[k := c]
    decreases |s|
  {
    if k > 0 { PutAt(s[1..], c, k - 1); }
  }

  lemma {:induction false} PutNew(s: seq<Claim>, c: Claim)
    requires forall i :: 0 <= i < |s| ==> s[i].ref != c.ref
    ensures Put(s, c) == s + [c]
    decreases |s|
  {
    if s != [] { PutNew(s[1..], c); }
  }

  /** `d` has each reference in the place of its first claim of `s` with the value of its last. */
  predicate Placed(s: seq<Claim>, d: seq<Claim>) {
    && (forall i :: 0 <= i < |d| ==> LastOf(s, d[i].ref) < |s| && d[i] == s[LastOf(s, d[i].ref)])
    && (forall i, j :: 0 <= i < j < |d| ==> FirstOf(s, d[i].ref) < FirstOf(s, d[j].ref))
  }

  lemma {:induction false} DeduplicatedPlaced(s: seq<Claim>)
    ensures Placed(s, Deduplicated(s))
    decreases |s|
  {
    if s != [] {
      var rest, last := s[..|s| - 1], s[|s| - 1];
      var d := Deduplicated(rest);
      DeduplicatedPlaced(rest);
      DeduplicatedOk(rest);
      if k :| 0 <= k < |d| && d[k].ref == last.ref {
        PutAt(d, last, k);
        PlacedAgain(s, d, k);
      } else {
        PutNew(d, last);
        forall i | 0 <= i < |rest| ensures rest[i].ref != last.ref { assert rest[i].ref in Refs(d); }
        PlacedNew(s, d);
      }
    }
  }

  lemma PlacesStay(s: seq<Claim>, d: seq<Claim>, i: nat)
    requires s != [] && Placed(s[..|s| - 1], d) && i < |d|
    ensures var rest := s[..|s| - 1];
            && FirstOf(s, d[i].ref) == FirstOf(rest, d[i].ref) < |rest|
            && LastOf(s, d[i].ref) == if d[i].ref == s[|s| - 1].ref then |rest| else LastOf(rest, d[i].ref)
  {
    var rest := s[..|s| - 1];
    assert rest[LastOf(rest, d[i].ref)].ref == d[i].ref;
  }

  lemma PlacedNew(s: seq<Claim>, d: seq<Claim>)
    requires s != [] && Placed(s[..|s| - 1], d)
    requires forall i :: 0 <= i < |s| - 1 ==> s[i].ref != s[|s| - 1].ref
    ensures Placed(s, d + [s[|s| - 1]])
  {
    forall i | 0 <= i < |d| ensures LastOf(s, d[i].ref) < |s| && d[i] == s[LastOf(s, d[i].ref)] {
      PlacesStay(s, d, i);
    }
    forall i, j | 0 <= i < j < |d| ensures FirstOf(s, d[i].ref) < FirstOf(s, d[j].ref) {
      PlacesStay(s, d, i);
      PlacesStay(s, d, j);
    }
    forall i | 0 <= i < |d| ensures FirstOf(s, d[i].ref) < |s| - 1 {
      PlacesStay(s, d, i);
    }
  }

  lemma PlacedAgain(s: seq<Claim>, d: seq<Claim>, k: nat)
    requires s != [] && Placed(s[..|s| - 1], d) && DistinctRefs(d) && k < |d| && d[k].ref == s[|s| - 1].ref
    ensures Placed(s, d[k := s[|s| - 1]])
  {
    forall i | 0 <= i < |d| && i != k ensures LastOf(s, d[i].ref) < |s| && d[i] == s[LastOf(s, d[i].ref)] {
      PlacesStay(s, d, i);
      assert d[i].ref != d[k].ref;
    }
    forall i, j | 0 <= i < j < |d| ensures FirstOf(s, d[i].ref) < FirstOf(s, d[j].ref) {
      PlacesStay(s, d, i);
      PlacesStay(s, d, j);
    }
  }

  /** All readings of some record lie between two readings of another. */
  ghost predicate Nests(s: seq<Claim>) {
    exists a, b, ref :: a in s && b in s && a.ref == b.ref && Inside(s, a, b, ref)
  }

  ghost predicate Inside(s: seq<Claim>, a: Claim, b: Claim, ref: MemoryRef) {
    ref in Refs(s) && ref != a.ref && forall c :: c in s && c.ref == ref ==> GoesBefore(a, c) && GoesBefore(c, b)
  }

  lemma SortedPlaces(s: seq<Claim>, i: nat, j: nat)
    requires InOrder(s) && i < |s| && j < |s| && s[i].ref != s[j].ref
    ensures GoesBefore(s[i], s[j]) <==> i < j
  {
    assert Key(s[i])[7] == s[i].ref && Key(s[j])[7] == s[j].ref;
    LessOrders(Key(s[i]), Key(s[j]), Key(s[i]));
  }

  lemma PairOrder(s: seq<Claim>, d: seq<Claim>, i: nat, j: nat)
    requires InOrder(s) && Placed(s, d) && i < |d| && j < |d| && d[i].ref != d[j].ref
    ensures Less(Key(d[i]), Key(d[j])) <==> LastOf(s, d[i].ref) < LastOf(s, d[j].ref)
  {
    SortedPlaces(s, LastOf(s, d[i].ref), LastOf(s, d[j].ref));
  }

  lemma Between(s: seq<Claim>, r: MemoryRef, t: MemoryRef, c: Claim)
    requires InOrder(s) && r != t && r in Refs(s) && t in Refs(s) && c in s && c.ref == t
    requires FirstOf(s, r) < FirstOf(s, t) && LastOf(s, t) < LastOf(s, r)
    ensures GoesBefore(s[FirstOf(s, r)], c) && GoesBefore(c, s[LastOf(s, r)])
  {
    var k :| 0 <= k < |s| && s[k] == c;
    SortedPlaces(s, FirstOf(s, r), k);
    SortedPlaces(s, k, LastOf(s, r));
  }

  lemma PlacedInside(s: seq<Claim>, r: MemoryRef, t: MemoryRef)
    requires InOrder(s) && r != t && r in Refs(s) && t in Refs(s)
    requires FirstOf(s, r) < FirstOf(s, t) && LastOf(s, t) < LastOf(s, r)
    ensures Inside(s, s[FirstOf(s, r)], s[LastOf(s, r)], t)
  {
    forall c | c in s && c.ref == t ensures GoesBefore(s[FirstOf(s, r)], c) && GoesBefore(c, s[LastOf(s, r)]) {
      Between(s, r, t, c);
    }
  }

  /** Where the places stand wrong, the later record lies inside the earlier one. */
  lemma PairInside(s: seq<Claim>, d: seq<Claim>, i: nat, j: nat)
    requires InOrder(s) && Placed(s, d) && i < j < |d| && d[i].ref != d[j].ref && !Less(Key(d[i]), Key(d[j]))
    ensures Inside(s, s[FirstOf(s, d[i].ref)], d[i], d[j].ref)
  {
    PairOrder(s, d, i, j);
    PlacedIn(s, d, i);
    PlacedIn(s, d, j);
    assert LastOf(s, d[j].ref) != LastOf(s, d[i].ref);
    PlacedInside(s, d[i].ref, d[j].ref);
  }

  lemma PlacedIn(s: seq<Claim>, d: seq<Claim>, i: nat)
    requires Placed(s, d) && i < |d|
    ensures d[i] in s && d[i].ref in Refs(s) && FirstOf(s, d[i].ref) < |s| && s[FirstOf(s, d[i].ref)] in s
  {
    assert d[i] == s[LastOf(s, d[i].ref)];
  }

  lemma NestedBreaks(s: seq<Claim>, d: seq<Claim>, a: Claim, b: Claim, ref: MemoryRef)
    requires InOrder(s) && Placed(s, d) && DistinctRefs(d) && Refs(d) == Refs(s)
    requires a in s && b in s && a.ref == b.ref && Inside(s, a, b, ref)
    ensures !Increasing(Keys(d))
  {
    NestedPlaces(s, a, b, ref);
    assert a.ref in Refs(s);
    var i :| 0 <= i < |d| && d[i].ref == a.ref;
    var j :| 0 <= j < |d| && d[j].ref == ref;
    WrongPair(s, d, i, j);
  }

  lemma WrongPair(s: seq<Claim>, d: seq<Claim>, i: nat, j: nat)
    requires InOrder(s) && Placed(s, d) && i < |d| && j < |d| && d[i].ref != d[j].ref
    requires FirstOf(s, d[i].ref) < FirstOf(s, d[j].ref) && LastOf(s, d[j].ref) < LastOf(s, d[i].ref)
    ensures !Increasing(Keys(d))
  {
    PlaceOrder(s, d, i, j);
    PairOrder(s, d, i, j);
    NotIncreasing(Keys(d), i, j);
  }

  lemma PlaceOrder(s: seq<Claim>, d: seq<Claim>, i: nat, j: nat)
    requires Placed(s, d) && i < |d| && j < |d| && FirstOf(s, d[i].ref) < FirstOf(s, d[j].ref)
    ensures i < j
  {
  }

  lemma NotIncreasing(keys: seq<seq<int>>, i: nat, j: nat)
    requires i < j < |keys| && (|keys[i]| == |keys[j]| ==> !Less(keys[i], keys[j]))
    ensures !Increasing(keys)
  {
  }

  lemma NestedPlaces(s: seq<Claim>, a: Claim, b: Claim, ref: MemoryRef)
    requires InOrder(s) && a in s && b in s && a.ref == b.ref && Inside(s, a, b, ref)
    ensures FirstOf(s, a.ref) < FirstOf(s, ref) && LastOf(s, ref) < LastOf(s, a.ref)
  {
    var p :| 0 <= p < |s| && s[p] == a;
    var q :| 0 <= q < |s| && s[q] == b;
    var first, last := FirstOf(s, ref), LastOf(s, ref);
    assert s[first] in s && s[last] in s;
    SortedPlaces(s, p, first);
    SortedPlaces(s, last, q);
  }

  lemma UnnestedHolds(s: seq<Claim>, d: seq<Claim>)
    requires InOrder(s) && Placed(s, d) && DistinctRefs(d) && !Nests(s)
    ensures Increasing(Keys(d))
  {
    forall i, j | 0 <= i < j < |d| ensures Less(Keys(d)[i], Keys(d)[j]) {
      if !Less(Key(d[i]), Key(d[j])) {
        PlacedIn(s, d, i);
        PairInside(s, d, i, j);
      }
    }
  }

  lemma {:induction false} FillInOrder(before: nat, claims: seq<Claim>)
    requires Increasing(Keys(claims))
    ensures Increasing(Keys(Fill(before, claims)))
    ensures forall c :: c in Fill(before, claims) ==> c in claims
    decreases |claims|
  {
    if claims != [] {
      var rest, last := claims[..|claims| - 1], claims[|claims| - 1];
      assert claims == rest + [last];
      assert Keys(rest) == Keys(claims)[..|claims| - 1];
      FillInOrder(before, rest);
      var taken := Fill(before, rest);
      forall i | 0 <= i < |taken| ensures Less(Key(taken[i]), Key(last)) {
        assert taken[i] in rest;
        var k :| 0 <= k < |rest| && rest[k] == taken[i];
        assert Less(Keys(claims)[k], Keys(claims)[|claims| - 1]);
      }
      assert Keys(taken + [last]) == Keys(taken) + [Key(last)];
    }
  }

  /**
   * Within a subject the candidates go strictly by kind, communication style, slot, confirmation, origin and age if
   * and only if no record has all its readings between two readings of another; what is emitted keeps that order.
   */
  lemma SubjectInOrder(eligible: seq<Claim>, subject: Subject, before: nat)
    ensures Increasing(Keys(CandidatesOf(eligible, subject))) <==> !Nests(Of(eligible, subject))
    ensures !Nests(Of(eligible, subject)) ==> Increasing(Keys(Fill(before, CandidatesOf(eligible, subject))))
  {
    var own := Of(eligible, subject);
    var goesBefore := (a: Claim, b: Claim) => GoesBefore(a, b);
    var sorted := SortBy(own, goesBefore);
    var d := Deduplicated(sorted);
    SortInOrder(own);
    SortByHolds(own, goesBefore);
    SameNests(own, sorted);
    DeduplicatedOk(sorted);
    DeduplicatedPlaced(sorted);
    if Nests(sorted) {
      var a, b, ref :| a in sorted && b in sorted && a.ref == b.ref && Inside(sorted, a, b, ref);
      NestedBreaks(sorted, d, a, b, ref);
    } else {
      UnnestedHolds(sorted, d);
      FillInOrder(before, d);
    }
  }

  lemma SameNests(s: seq<Claim>, t: seq<Claim>)
    requires forall c :: c in s <==> c in t
    ensures Nests(s) <==> Nests(t)
  {
    SameRefs(s, t);
    if Nests(s) {
      var a, b, ref :| a in s && b in s && a.ref == b.ref && Inside(s, a, b, ref);
      assert Inside(t, a, b, ref);
    }
    if Nests(t) {
      var a, b, ref :| a in t && b in t && a.ref == b.ref && Inside(t, a, b, ref);
      assert Inside(s, a, b, ref);
    }
  }

  /** The second reading of a record stands in the place of the first, ahead of a record it goes behind. */
  lemma ReadingOutOfOrder(first: Claim, other: Claim, second: Claim)
    requires first.subject == other.subject == second.subject && first.ref == second.ref != other.ref
    requires GoesBefore(first, other) && GoesBefore(other, second)
    ensures CandidatesOf([first, other, second], first.subject) == [second, other]
    ensures !Increasing(Keys([second, other]))
  {
    var s := [first, other, second];
    var before := (a: Claim, b: Claim) => GoesBefore(a, b);
    FilterAll(s, (c: Claim) => c.subject == first.subject);
    LessOrders(Key(first), Key(other), Key(second));
    LessOrders(Key(second), Key(other), Key(first));
    LessOrders(Key(other), Key(second), Key(other));
    assert Ordered(s, before);
    SortSorted(s, before);
    ReadingPut(first, other, second);
    assert Keys([second, other])[0] == Key(second) && Keys([second, other])[1] == Key(other);
  }

  lemma ReadingPut(first: Claim, other: Claim, second: Claim)
    requires first.ref == second.ref != other.ref
    ensures Deduplicated([first, other, second]) == [second, other]
  {
    var s := [first, other, second];
    assert s[..2][..1] == [first] && s[..2][1] == other && [first][..0] == [];
    assert Deduplicated([first]) == [first];
    assert Put([first], other) == [first] + Put([], other);
    assert Deduplicated(s[..2]) == [first, other];
  }

  lemma {:induction false} FilterAll(s: seq<Claim>, keep: Claim -> bool)
    requires forall i :: 0 <= i < |s| ==> keep(s[i])
    ensures Filter(s, keep) == s
    decreases |s|
  {
    if s != [] { FilterAll(s[..|s| - 1], keep); }
  }

  lemma {:induction false} SortSorted<T(!new)>(s: seq<T>, before: (T, T) -> bool)
    requires Ordered(s, before)
    ensures SortBy(s, before) == s
    decreases |s|
  {
    if s != [] {
      var rest, last := s[..|s| - 1], s[|s| - 1];
      SortSorted(rest, before);
      assert s == rest + [last];
      assert rest != [] ==> !before(last, rest[|rest| - 1]);
    }
  }

  // What may be shown, and what goes first

  /** Admitted by the record itself, current, normal, no episode, and verified within the last sixty days. */
  predicate MayShow(c: Claim, now: int) {
    && c.eligible && c.active && c.normal
    && c.kind in {Profile, Preference, Statement, FamilyShared}
    && c.verifiedAt.Some? && now < c.verifiedAt.value + 60 * 86_400_000
  }

  lemma EmittedMayShow(candidates: seq<Claim>, now: int, eligible: seq<Claim>, selection: seq<Selected>, i: nat, c: Claim)
    requires eligible == Filter(candidates, (c: Claim) => Eligible(c, now)) && SelectionOk(selection, eligible)
    requires i < |selection| && c in selection[i].claims
    ensures c in candidates && MayShow(c, now)
  {
    assert SubjectOk(selection[i], eligible);
    Filtered(candidates, (c: Claim) => Eligible(c, now), c);
  }

  ghost predicate OnlyShown(candidates: seq<Claim>, now: int, subjects: seq<Selected>) {
    forall i, c :: 0 <= i < |subjects| && c in subjects[i].claims ==> c in candidates && MayShow(c, now)
  }

  /** Nothing else is ever selected, whatever the candidates are. */
  lemma OnlyShownClaims(candidates: seq<Claim>, now: int, eligible: seq<Claim>, selection: seq<Selected>)
    requires eligible == Filter(candidates, (c: Claim) => Eligible(c, now)) && SelectionOk(selection, eligible)
    ensures OnlyShown(candidates, now, selection)
  {
    forall i: nat, c | i < |selection| && c in selection[i].claims ensures c in candidates && MayShow(c, now) {
      EmittedMayShow(candidates, now, eligible, selection, i, c);
    }
  }

  /** And what may be shown is a candidate of its subject. */
  lemma ShownIsCandidate(candidates: seq<Claim>, now: int, c: Claim)
    requires c in candidates && MayShow(c, now)
    ensures var eligible := Filter(candidates, (c: Claim) => Eligible(c, now));
            c in eligible && c.subject in Subjects(eligible) && c.ref in Refs(CandidatesOf(eligible, c.subject))
  {
    var eligible := Filter(candidates, (c: Claim) => Eligible(c, now));
    Filtered(candidates, (c: Claim) => Eligible(c, now), c);
    Filtered(eligible, (d: Claim) => d.subject == c.subject, c);
    CandidatesOk(eligible, c.subject);
    assert c in Of(eligible, c.subject);
  }

  /** How the person talks comes first, then the card by kind: slotted before free-form, confirmed, personal, recent. */
  lemma CardOrder(a: Claim, b: Claim)
    ensures a.kind == Profile && b.kind != Profile ==> GoesBefore(a, b)
    ensures a.kind == Preference && b.kind in {Statement, FamilyShared} ==> GoesBefore(a, b)
    ensures a.kind == Statement && b.kind == FamilyShared ==> GoesBefore(a, b)
    ensures a.kind == b.kind && a.style && !b.style ==> GoesBefore(a, b)
    ensures a.kind == b.kind && a.style == b.style && a.attribute.Some? && b.attribute.None? ==> GoesBefore(a, b)
    ensures SameCard(a, b) && a.confirmed && !b.confirmed ==> GoesBefore(a, b)
    ensures SameCard(a, b) && a.confirmed == b.confirmed && a.origin == Personal && b.origin != Personal ==> GoesBefore(a, b)
    ensures SameCard(a, b) && a.confirmed == b.confirmed && a.origin == Family && b.origin == Group ==> GoesBefore(a, b)
    ensures SameCard(a, b) && a.confirmed == b.confirmed && a.origin == b.origin && a.updated > b.updated ==> GoesBefore(a, b)
  {
    LessAt(Key(a), Key(b), 0);
    LessAt(Key(a), Key(b), 1);
    LessAt(Key(a), Key(b), 2);
    LessAt(Key(a), Key(b), 4);
    LessAt(Key(a), Key(b), 5);
    LessAt(Key(a), Key(b), 6);
  }

  /** A claim is shown with its origin and, if it has one, its slot in front of its own text, and at that length. */
  lemma RenderShows(c: Claim)
    ensures var r := Render(c);
            && |r| == 7 + |c.originName| + |c.originLabel| + (if c.attribute == None then 0 else |c.attribute.value| + 2) + |c.content|
            && r[|r| - |c.content|..] == c.content && r[3..3 + |c.originName|] == c.originName
  {
  }

  predicate SameCard(a: Claim, b: Claim) {
    a.kind == b.kind && a.style == b.style && a.attribute.Some? == b.attribute.Some? && a.attributeOrder == b.attributeOrder
  }

  /** The first difference decides. */
  lemma {:induction false} LessAt(a: seq<int>, b: seq<int>, k: nat)
    requires |a| == |b| && k < |a|
    ensures (forall i :: 0 <= i < k ==> a[i] == b[i]) && a[k] < b[k] ==> Less(a, b)
    decreases k
  {
    if k > 0 { LessAt(a[1..], b[1..], k - 1); }
  }

  /** The author is the strongest signal, then the one answered, then a mention, then what search found. */
  lemma SignalOrder(eligible: seq<Claim>, c: Claim, other: Subject)
    requires c in eligible
    requires forall d :: d in eligible && d.subject == other ==> Weaker(c.priority, d.priority)
    ensures SubjectBefore(eligible, c.subject, other)
  {
    Filtered(eligible, (d: Claim) => d.subject == c.subject, c);
    BestIs(Of(eligible, c.subject), c);
    forall d | d in Of(eligible, other) ensures Weaker(c.priority, d.priority) {
      Filtered(eligible, (d: Claim) => d.subject == other, d);
    }
    BestAbove(Of(eligible, other), c.priority);
  }

  predicate Weaker(a: Priority, b: Priority) {
    match a
    case CurrentAuthor => b != CurrentAuthor
    case ReplySubject => b in {ExplicitMention, RetrievalRelated}
    case ExplicitMention => b == RetrievalRelated
    case RetrievalRelated => false
  }

  lemma {:induction false} BestIs(claims: seq<Claim>, c: Claim)
    requires c in claims
    ensures Best(claims) <= PriorityRank(c.priority)
    decreases |claims|
  {
    if claims[|claims| - 1] != c { BestIs(claims[..|claims| - 1], c); }
  }

  lemma {:induction false} BestAbove(claims: seq<Claim>, p: Priority)
    requires forall d :: d in claims ==> Weaker(p, d.priority)
    ensures Best(claims) > PriorityRank(p)
    decreases |claims|
  {
    if claims != [] {
      assert claims[|claims| - 1] in claims;
      BestAbove(claims[..|claims| - 1], p);
    }
  }

  // The loops

  lemma FillStep(before: nat, candidates: seq<Claim>, i: nat)
    requires i < |candidates|
    ensures var taken, next := Fill(before, candidates[..i]), candidates[i];
            Fill(before, candidates[..i + 1]) == if StaysOut(taken, before + Rendered(taken), next) then taken else taken + [next]
  {
    assert candidates[..i + 1] == candidates[..i] + [candidates[i]];
    FillPush(before, candidates[..i], candidates[i], candidates[..i + 1]);
  }

  lemma FillPush(before: nat, s: seq<Claim>, c: Claim, more: seq<Claim>)
    requires more == s + [c]
    ensures var taken := Fill(before, s);
            Fill(before, more) == if StaysOut(taken, before + Rendered(taken), c) then taken else taken + [c]
  {
    var front := more[..|more| - 1];
    assert front == s && more[|more| - 1] == c;
  }

  lemma RenderedStep(claims: seq<Claim>, c: Claim)
    ensures Rendered(claims + [c]) == Rendered(claims) + |Render(c)|
  {
    assert (claims + [c])[..|claims|] == claims;
  }

  method FillSubject(before: nat, candidates: seq<Claim>) returns (claims: seq<Claim>, subjectCharacters: nat)
    ensures claims == Fill(before, candidates) && subjectCharacters == Rendered(claims)
  {
    claims, subjectCharacters := [], 0;
    var totalCharacters := before;
    for i := 0 to |candidates|
      invariant claims == Fill(before, candidates[..i]) && subjectCharacters == Rendered(claims)
      invariant totalCharacters == before + subjectCharacters
    {
      FillStep(before, candidates, i);
      RenderedStep(claims, candidates[i]);
      var size := |Render(candidates[i])|;
      ghost var out := StaysOut(claims, totalCharacters, candidates[i]);
      if |claims| >= MAX_CLAIMS_PER_SUBJECT || size > MAX_SUBJECT_CHARACTERS
         || subjectCharacters + size > MAX_SUBJECT_CHARACTERS || totalCharacters + size > MAX_CHARACTERS {
        assert out;
        continue;
      }
      assert !out;
      claims := claims + [candidates[i]];
      subjectCharacters := subjectCharacters + size;
      totalCharacters := totalCharacters + size;
    }
    assert candidates[..|candidates|] == candidates;
  }

  method SelectProfileClaims(candidates: seq<Claim>, now: int) returns (subjects: seq<Selected>, totalCharacters: nat)
    ensures var eligible := Filter(candidates, (c: Claim) => Eligible(c, now));
            && subjects == AddSubjects(eligible, OrderedSubjects(eligible))
            && totalCharacters == Total(subjects)
            && |subjects| <= 4 && SelectionOk(subjects, eligible)
            && Strongest(eligible) && Maximal(eligible, OrderedSubjects(eligible), subjects)
    ensures OnlyShown(candidates, now, subjects)
  {
    var eligible := Filter(candidates, (c: Claim) => Eligible(c, now));
    var ordered := OrderedSubjects(eligible);
    subjects, totalCharacters := SelectSubjects(eligible, ordered);
    SubjectsFirst(eligible);
    SelectedOk(eligible, ordered);
    SelectionMaximal(eligible, ordered);
    OnlyShownClaims(candidates, now, eligible, subjects);
  }

  method SelectSubjects(eligible: seq<Claim>, ordered: seq<Subject>) returns (subjects: seq<Selected>, totalCharacters: nat)
    ensures subjects == AddSubjects(eligible, ordered) && totalCharacters == Total(subjects)
  {
    subjects, totalCharacters := [], 0;
    for i := 0 to |ordered|
      invariant subjects == AddSubjects(eligible, ordered[..i]) && totalCharacters == Total(subjects)
    {
      assert ordered[..i + 1][..i] == ordered[..i];
      var claims, subjectCharacters := FillSubject(totalCharacters, CandidatesOf(eligible, ordered[i]));
      if claims == [] {
        continue;
      }
      assert (subjects + [Selected(ordered[i], claims)])[..|subjects|] == subjects;
      subjects := subjects + [Selected(ordered[i], claims)];
      totalCharacters := totalCharacters + subjectCharacters;
    }
    assert ordered[..|ordered|] == ordered;
  }
}
