/** Datatypes shared by the model's modules. */
module Common {

  datatype Option<+T> = None | Some(value: T)

  /** A Git object name. Only equality of names matters here. */
  type Sha = nat

  /** A character-level payload (title, body, message) that is only ever compared. */
  type Text = nat

  /** What the local object store answers: commits never change, so all three are fixed functions. */
  datatype Git = Objects(tree: Sha -> nat, isAncestor: (Sha, Sha) -> bool, differs: (Sha, Sha) -> bool)
}
