/** The kinds of Java callables a method ID may stand for (src/env/ids.rs). */
module MethodKinds {

  datatype MethodKind = Constructor | Instance | Static
}
