/** The two places where a GraphQL response is cleaned before use:
    the project's field list and a pull request's closing-issue references. */
module Responses {
  import opened Wrappers

  /** One option of a single-select field. */
  datatype FieldOption = FieldOption(id: string, name: string)

  /** A single-select project field with its options, in server order. */
  datatype ProjectField = ProjectField(id: string, name: string, options: seq<FieldOption>)

  /** One entry of `fields.nodes`. A field that is not single-select comes back
      as an empty object, because the query only selects members through the
      single-select fragment; an entry may also be null. */
  datatype FieldNode = NullNode | EmptyNode | SingleSelect(field: ProjectField)

  /** An issue as the closing-references query returns it. */
  datatype IssueRef = IssueRef(id: string, body: string, number: int, title: string)

  /** One entry of `closingIssuesReferences.edges`; its node may be null. */
  datatype Edge = Edge(node: Option<IssueRef>)

  /** Truthiness of a field node: null and the empty object are false. */
  predicate IsTruthy(n: FieldNode)
  {
    n.SingleSelect?
  }

  /** `get_project_fields`: keep the truthy field nodes, in order. */
  function ProjectFields(nodes: seq<FieldNode>): (fields: seq<ProjectField>)
    ensures |fields| <= |nodes|
    ensures forall f :: f in fields <==> SingleSelect(f) in nodes
  {
    if nodes == [] then []
    else (if IsTruthy(nodes[0]) then [nodes[0].field] else []) + ProjectFields(nodes[1..])
  }

  /** Filtering commutes with concatenation, so the kept fields appear in the
      order of the nodes they came from. */
  lemma {:induction false} ProjectFieldsAppend(a: seq<FieldNode>, b: seq<FieldNode>)
    ensures ProjectFields(a + b) == ProjectFields(a) + ProjectFields(b)
  {
    if a == [] {
      assert a + b == b;
    } else {
      assert (a + b)[1..] == a[1..] + b;
      ProjectFieldsAppend(a[1..], b);
    }
  }

  /** When every node is a single-select field, nothing is dropped or moved. */
  lemma {:induction false} ProjectFieldsKeepsAll(nodes: seq<FieldNode>)
    requires forall i :: 0 <= i < |nodes| ==> nodes[i].SingleSelect?
    ensures |ProjectFields(nodes)| == |nodes|
    ensures forall i :: 0 <= i < |nodes| ==> ProjectFields(nodes)[i] == nodes[i].field
  {
    if nodes != [] {
      ProjectFieldsKeepsAll(nodes[1..]);
    }
  }

  /** `get_pull_request_linked_issues`: keep the edges whose node is present,
      in order, and return those nodes. */
  function LinkedIssues(edges: seq<Edge>): (issues: seq<IssueRef>)
    ensures |issues| <= |edges|
    ensures forall x :: x in issues <==> Edge(Some(x)) in edges
  {
    if edges == [] then []
    else (if edges[0].node.Some? then [edges[0].node.value] else []) + LinkedIssues(edges[1..])
  }

  /** Filtering commutes with concatenation, so the linked issues appear in
      the order of their edges. */
  lemma {:induction false} LinkedIssuesAppend(a: seq<Edge>, b: seq<Edge>)
    ensures LinkedIssues(a + b) == LinkedIssues(a) + LinkedIssues(b)
  {
    if a == [] {
      assert a + b == b;
    } else {
      assert (a + b)[1..] == a[1..] + b;
      LinkedIssuesAppend(a[1..], b);
    }
  }

  /** When every edge carries a node, the result is exactly those nodes. */
  lemma {:induction false} LinkedIssuesKeepsAll(edges: seq<Edge>)
    requires forall i :: 0 <= i < |edges| ==> edges[i].node.Some?
    ensures |LinkedIssues(edges)| == |edges|
    ensures forall i :: 0 <= i < |edges| ==> LinkedIssues(edges)[i] == edges[i].node.value
  {
    if edges != [] {
      LinkedIssuesKeepsAll(edges[1..]);
    }
  }
}
