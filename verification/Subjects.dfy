// Subjects of the SubjectList resource and their conversion to subjects of role bindings.
module Subjects {
  import opened Common

  const LS_USER_NAMESPACE := "ls-user"
  const RBAC_API_GROUP := "rbac.authorization.k8s.io"

  datatype Entry = Entry(kind: string, name: string, namespace: string)
  datatype Subject = Subject(apiGroup: string, kind: string, name: string, namespace: string)

  function CreateSubject(e: Entry): Option<Subject> {
    if e.kind == "User" || e.kind == "Group" then
      Some(Subject(RBAC_API_GROUP, e.kind, e.name, ""))
    else if e.kind == "ServiceAccount" then
      Some(Subject("", e.kind, e.name, if e.namespace == "" then LS_USER_NAMESPACE else e.namespace))
    else
      None
  }

  // The conversion of a list: entries of unknown kind are left out.
  function Converted(list: seq<Entry>): seq<Subject> {
    if list == [] then []
    else
      var n := |list| - 1;
      var last := CreateSubject(list[n]);
      if last.Some? then Converted(list[..n]) + [last.value] else Converted(list[..n])
  }

  method CreateSubjectsForSubjectList(list: seq<Entry>) returns (subjects: seq<Subject>)
    ensures subjects == Converted(list)
  {
    subjects := [];
    for i := 0 to |list|
      invariant subjects == Converted(list[..i])
    {
      assert list[..i + 1][..i] == list[..i];
      var subject := CreateSubject(list[i]);
      if subject.None? {
        continue;
      }
      subjects := subjects + [subject.value];
    }
    assert list[..|list|] == list;
  }

  // ---- What a conversion keeps ----

  // `origin` picks, in increasing order, exactly the entries of known kind.
  ghost predicate PicksKnown(list: seq<Entry>, origin: seq<nat>) {
    && (forall i :: 0 <= i < |origin| ==> origin[i] < |list|)
    && (forall i, j :: 0 <= i < j < |origin| ==> origin[i] < origin[j])
    && (forall k :: 0 <= k < |list| ==> (list[k].kind in ["User", "Group", "ServiceAccount"] <==> k in origin))
  }

  // A user or a group belongs to the API group of RBAC, whatever namespace the entry gives; a service account belongs
  // to the namespace of the entry, or else to that of the sidecar.
  predicate Stands(s: Subject, e: Entry) {
    && s.kind == e.kind && s.name == e.name
    && (e.kind in ["User", "Group"] ==> s.apiGroup == "rbac.authorization.k8s.io" && s.namespace == "")
    && (e.kind == "ServiceAccount" ==>
          s.apiGroup == "" && s.namespace == if |e.namespace| > 0 then e.namespace else "ls-user")
  }

  lemma EntryGivesSubject(e: Entry)
    ensures CreateSubject(e).Some? <==> e.kind in ["User", "Group", "ServiceAccount"]
    ensures CreateSubject(e).Some? ==> Stands(CreateSubject(e).value, e)
  {
  }

  /** The subjects of a binding are the entries of known kind, each once and in the order of the list. */
  lemma {:induction false} ConversionKeepsOrder(list: seq<Entry>) returns (origin: seq<nat>)
    ensures PicksKnown(list, origin)
    ensures |origin| == |Converted(list)|
    ensures forall i :: 0 <= i < |origin| ==> Stands(Converted(list)[i], list[origin[i]])
  {
    hide CreateSubject, Stands;
    if list == [] {
      origin := [];
    } else {
      var n := |list| - 1;
      origin := ConversionKeepsOrder(list[..n]);
      assert forall k :: 0 <= k < n ==> list[..n][k] == list[k];
      EntryGivesSubject(list[n]);
      if CreateSubject(list[n]).Some? {
        var before := origin;
        origin := before + [n];
        assert n in origin by { assert origin[|before|] == n; }
        assert forall k :: k in before ==> k in origin;
      }
    }
  }

  // The user, the group or the service account that an entry or a subject stands for.
  function EntryIdentity(e: Entry): (string, string, string) {
    (e.kind, if e.kind != "ServiceAccount" then "" else if e.namespace == "" then LS_USER_NAMESPACE
      else e.namespace, e.name)
  }

  function SubjectIdentity(s: Subject): (string, string, string) {
    (s.kind, s.namespace, s.name)
  }

  /** A subject stands for the same user, group or service account as its entry, and two entries give the same subject
      exactly if they stand for the same. */
  lemma ConversionKeepsIdentity(a: Entry, b: Entry)
    requires a.kind in ["User", "Group", "ServiceAccount"] && b.kind in ["User", "Group", "ServiceAccount"]
    ensures CreateSubject(a).Some? && CreateSubject(b).Some?
    ensures SubjectIdentity(CreateSubject(a).value) == EntryIdentity(a)
    ensures CreateSubject(a) == CreateSubject(b) <==> EntryIdentity(a) == EntryIdentity(b)
  {
  }
}
