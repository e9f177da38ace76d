/** Templates, jobs and the "<node>.<port>" keys that name their edges (server/models.py). */
module Models {

  /** Validated parameters: name to the canonical text of the value. */
  type Params = map<string, string>

  /** One node of a template. `edges` maps an input port to a "<node>.<port>" key. */
  datatype NodeSpec = NodeSpec(id: string, kind: string, params: Params, edges: map<string, string>)

  /** `outputs` maps a public name to a "<node>.<port>" key. */
  datatype Template = Template(nodes: seq<NodeSpec>, outputs: map<string, string>)

  /** A file outside the cache, as handed to the job under an input port. */
  datatype ExtRef = ExtRef(port: string, path: string)

  /** The value of an external input: one file, or a list for a list-typed port. */
  datatype ExtVal = OneFile(file: ExtRef) | ManyFiles(files: seq<ExtRef>)

  /** `inputs` is keyed "<node>.<port>"; `overrides` is keyed by node id. */
  datatype Job = Job(inputs: map<string, ExtVal>, overrides: map<string, Params>)

  function Key(nid: string, port: string): string {
    nid + "." + port
  }

  /** The part of a key before its first dot. */
  function NodeOf(key: string): string {
    if key == [] || key[0] == '.' then [] else [key[0]] + NodeOf(key[1..])
  }

  predicate DotFree(s: string) {
    '.' !in s
  }

  lemma {:induction false} NodeOfKey(nid: string, port: string)
    requires DotFree(nid)
    ensures NodeOf(Key(nid, port)) == nid
  {
    if nid == [] {
    } else {
      NodeOfKey(nid[1..], port);
      assert Key(nid, port)[1..] == Key(nid[1..], port);
      assert nid == [nid[0]] + nid[1..];
    }
  }

  /** With dot-free node ids a key determines its node and its port. */
  lemma KeyInjective(n1: string, p1: string, n2: string, p2: string)
    requires DotFree(n1) && DotFree(n2) && Key(n1, p1) == Key(n2, p2)
    ensures n1 == n2 && p1 == p2
  {
    NodeOfKey(n1, p1);
    NodeOfKey(n2, p2);
    assert Key(n1, p1)[|n1| + 1..] == p1;
    assert Key(n2, p2)[|n2| + 1..] == p2;
  }
}
