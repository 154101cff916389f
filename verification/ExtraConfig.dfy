/** Files of the common configuration map that come from referenced configuration maps. */
module ExtraConfig {

  type Files = map<string, string>

  /** Referenced maps overlay the data in reference order; a reference that cannot be read is skipped. */
  function Overlaid(data: Files, refs: seq<string>, store: map<string, Files>): Files {
    if refs == [] then data else
      var n := |refs| - 1;
      var sofar := Overlaid(data, refs[..n], store);
      if refs[n] in store then sofar + store[refs[n]] else sofar
  }

  method AddExtraCommonConfig(data: Files, refs: seq<string>, store: map<string, Files>) returns (result: Files)
    ensures result == Overlaid(data, refs, store)
  {
    result := data;
    for i := 0 to |refs|
      invariant result == Overlaid(data, refs[..i], store)
    {
      assert refs[..i + 1][..i] == refs[..i];
      if refs[i] !in store { continue; }
      var files := store[refs[i]];
      ghost var before := result;
      var todo := files.Keys;
      while todo != {}
        invariant todo <= files.Keys
        invariant result == before + map f | f in files.Keys - todo :: files[f]
        decreases |todo|
      {
        var name :| name in todo;
        result := result[name := files[name]];
        todo := todo - {name};
      }
      assert result == before + files;
    }
    assert refs[..|refs|] == refs;
  }

  /** Reference `i` supplies the file and no later reference does. */
  ghost predicate LastSupplier(refs: seq<string>, store: map<string, Files>, file: string, i: int) {
    && 0 <= i < |refs| && refs[i] in store && file in store[refs[i]]
    && forall j :: i < j < |refs| && refs[j] in store ==> file !in store[refs[j]]
  }

  /** The last reference that supplies a file decides it; without one the operator's own data does. */
  lemma {:induction false} LastReferenceWins(data: Files, refs: seq<string>, store: map<string, Files>, file: string)
    ensures var r := Overlaid(data, refs, store);
            && (forall i :: LastSupplier(refs, store, file, i) ==> file in r && r[file] == store[refs[i]][file])
            && ((forall i :: !LastSupplier(refs, store, file, i)) ==>
                  (file in r <==> file in data) && (file in data ==> r[file] == data[file]))
  {
    if refs != [] {
      var n := |refs| - 1;
      var front := refs[..n];
      LastReferenceWins(data, front, store, file);
      if refs[n] in store && file in store[refs[n]] {
        assert LastSupplier(refs, store, file, n);
      } else {
        forall i ensures LastSupplier(refs, store, file, i) <==> LastSupplier(front, store, file, i) {
          if LastSupplier(front, store, file, i) {
            assert forall j :: i < j < n ==> refs[j] == front[j];
          }
          if LastSupplier(refs, store, file, i) {
            assert i < n && front[i] == refs[i];
          }
        }
      }
    }
  }
}
