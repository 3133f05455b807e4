/** Identity of one log stream (crates/rustern-core/src/source/mod.rs). */
module Source {
  datatype SourceKey = SourceKey(context: string, namespace: string, pod: string, container: string, uid: string)
}
