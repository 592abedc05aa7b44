/** The state of one rollout group: what arrived, what failed, whether it may be
    trained on, and how it is written to disk and read back. */
module Groups {
  import opened Outcomes
  import opened Decimal
  import opened Models

  datatype Status = OpenGroup | ReadyGroup | FailedGroup | DroppedGroup

  /** A failure reason is filed under the sample's index, until a restart turns
      the index into text. */
  datatype ReasonKey = IndexKey(index: int) | TextKey(text: string)

  const FIVE_MINUTES := 300_000_000_000

  datatype Group = Group(
    id: string,
    promptId: string,
    size: nat,
    version: int,
    rolloutStep: int,
    assignees: seq<string>,
    completed: set<int>,
    failed: set<int>,
    created: nat,
    deadline: int,
    status: Status,
    signature: string,
    responses: map<int, Response>,
    reasons: map<ReasonKey, string>)
  {
    predicate IsComplete() { |completed| == size && failed == {} }

    predicate HasIndex(i: int) { 0 <= i < size }

    /** Same group with the failure reasons left out. */
    function Bare(): Group { this.(reasons := map[]) }
  }

  predicate SameRevisions(a: Response, b: Response) {
    a.tokenizer == b.tokenizer && a.template == b.template
  }

  /** A group as a JSON document holds it: every key is text. */
  datatype Stored = Stored(
    id: string,
    promptId: string,
    size: nat,
    version: int,
    rolloutStep: int,
    assignees: seq<string>,
    completed: set<int>,
    failed: set<int>,
    created: nat,
    deadline: int,
    status: Status,
    signature: string,
    responses: map<string, Response>,
    reasons: map<string, string>)

  /** Keys can be sorted only if they are all numbers or all text. */
  predicate Sortable(reasons: map<ReasonKey, string>) {
    (forall k | k in reasons :: k.IndexKey?) || (forall k | k in reasons :: k.TextKey?)
  }

  predicate ByIndex(reasons: map<ReasonKey, string>) {
    forall k | k in reasons :: k.IndexKey?
  }

  function KeyText(k: ReasonKey): string {
    match k
    case IndexKey(i) => Show(i)
    case TextKey(t) => t
  }

  ghost predicate Apart<K(!new), V>(text: K -> string, m: map<K, V>) {
    forall k, k' | k in m && k' in m && text(k) == text(k') :: k == k'
  }

  /** The key that is written like this. */
  function KeyOf<K(!new), V>(text: K -> string, m: map<K, V>, t: string): (key: K)
    requires Apart(text, m) && exists k | k in m :: text(k) == t
    ensures key in m && text(key) == t
  {
    var k :| k in m && text(k) == t;
    k
  }

  /** A mapping with its keys written out; no two may be written alike. */
  function Rekey<K(!new), V>(text: K -> string, m: map<K, V>): (written: map<string, V>)
    requires Apart(text, m)
    ensures forall k | k in m :: text(k) in written && written[text(k)] == m[k]
    ensures forall t | t in written :: exists k | k in m :: text(k) == t
  {
    var texts := set k | k in m :: text(k);
    map t | t in texts :: m[KeyOf(text, m, t)]
  }

  /** Whether reading the keys back loses none of them. */
  ghost predicate Legible<K, V>(read: string -> Option<K>, m: map<string, V>) {
    && (forall t | t in m :: read(t).Some?)
    && (forall t, t' | t in m && t' in m && read(t) == read(t') :: t == t')
  }

  /** The text that reads as this key. */
  function TextOf<K(==), V>(read: string -> Option<K>, m: map<string, V>, k: K): (text: string)
    requires Legible(read, m) && exists t | t in m :: read(t) == Some(k)
    ensures text in m && read(text) == Some(k)
  {
    var t :| t in m && read(t) == Some(k);
    t
  }

  function Unkey<K(==), V>(read: string -> Option<K>, m: map<string, V>): (back: map<K, V>)
    requires Legible(read, m)
    ensures forall t | t in m :: read(t).value in back && back[read(t).value] == m[t]
    ensures forall k | k in back :: exists t | t in m :: read(t) == Some(k)
  {
    var keys := set t | t in m :: read(t).value;
    map k | k in keys :: m[TextOf(read, m, k)]
  }

  ghost predicate Inverts<K, V>(text: K -> string, read: string -> Option<K>, m: map<K, V>) {
    forall k | k in m :: read(text(k)) == Some(k)
  }

  lemma InvertsMeansApart<K(!new), V>(text: K -> string, read: string -> Option<K>, m: map<K, V>)
    requires Inverts(text, read, m)
    ensures Apart(text, m)
  {
    forall k, k' | k in m && k' in m && text(k) == text(k') ensures k == k' {
      assert read(text(k)) == Some(k) && read(text(k')) == Some(k');
    }
  }

  lemma RekeyRoundTrips<K(!new), V>(text: K -> string, read: string -> Option<K>, m: map<K, V>)
    requires Inverts(text, read, m) && Apart(text, m)
    ensures Legible(read, Rekey(text, m)) && Unkey(read, Rekey(text, m)) == m
  {
    var written := Rekey(text, m);
    forall t | t in written
      ensures read(t).Some? && read(t).value in m && text(read(t).value) == t && written[t] == m[read(t).value]
    {
      var k :| k in m && text(k) == t;
      assert read(text(k)) == Some(k);
    }
    assert Legible(read, written);
    var back := Unkey(read, written);
    forall k | k in m ensures k in back {
      assert text(k) in written;
    }
  }

  lemma ShowInverts<V>(m: map<int, V>)
    ensures Inverts(Show, Read, m) && Apart(Show, m)
  {
    forall k | k in m ensures Read(Show(k)) == Some(k) {
      RoundTrips(k);
    }
    InvertsMeansApart(Show, Read, m);
  }

  function AsText(t: string): Option<ReasonKey> { Some(TextKey(t)) }

  lemma SortableIsApart(reasons: map<ReasonKey, string>)
    requires Sortable(reasons)
    ensures Apart(KeyText, reasons)
  {
    forall k, k' | k in reasons && k' in reasons && KeyText(k) == KeyText(k') ensures k == k' {
      if k.IndexKey? { ShowIsInjective(k.index, k'.index); }
    }
  }

  function ToStored(g: Group): Stored
    requires Sortable(g.reasons)
  {
    ShowInverts(g.responses);
    SortableIsApart(g.reasons);
    Stored(g.id, g.promptId, g.size, g.version, g.rolloutStep, g.assignees, g.completed, g.failed,
           g.created, g.deadline, g.status, g.signature, Rekey(Show, g.responses), Rekey(KeyText, g.reasons))
  }

  /** A deadline of zero stands for the default one. */
  function Deadline(created: nat, deadline: int): int {
    if deadline == 0 then created + FIVE_MINUTES else deadline
  }

  function FromStored(d: Stored): Group
    requires Legible(Read, d.responses)
  {
    Group(d.id, d.promptId, d.size, d.version, d.rolloutStep, d.assignees, d.completed, d.failed, d.created,
          Deadline(d.created, d.deadline), d.status, d.signature, Unkey(Read, d.responses), Unkey(AsText, d.reasons))
  }

  ghost predicate ByText(reasons: map<ReasonKey, string>) {
    forall k | k in reasons :: k.TextKey?
  }

  /** The same reasons, each under its key's text. */
  function Retold(reasons: map<ReasonKey, string>): map<ReasonKey, string>
    requires Sortable(reasons)
  {
    SortableIsApart(reasons);
    Unkey(AsText, Rekey(KeyText, reasons))
  }

  lemma RetoldIsText(reasons: map<ReasonKey, string>)
    requires Sortable(reasons)
    ensures ByText(Retold(reasons)) && (Retold(reasons) == map[] <==> reasons == map[])
    ensures ByText(reasons) ==> Retold(reasons) == reasons
  {
    SortableIsApart(reasons);
    var written := Rekey(KeyText, reasons);
    if reasons != map[] {
      var k :| k in reasons;
      assert KeyText(k) in written;
      assert TextKey(KeyText(k)) in Retold(reasons);
    }
    if ByText(reasons) {
      forall k | k in reasons ensures AsText(KeyText(k)) == Some(k) {}
      RekeyRoundTrips(KeyText, AsText, reasons);
    }
  }

  /** Everything comes back from disk as it was, except that reasons come back
      under text keys. */
  lemma StoreRoundTrips(g: Group)
    requires Sortable(g.reasons) && g.deadline != 0
    ensures Legible(Read, ToStored(g).responses)
    ensures FromStored(ToStored(g)) == g.(reasons := Retold(g.reasons))
  {
    ShowInverts(g.responses);
    RekeyRoundTrips(Show, Read, g.responses);
  }
}
