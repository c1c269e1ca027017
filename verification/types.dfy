/** Small value types shared by every part of the hiring assistant. */
module Types {

  datatype Option<+T> = None | Some(value: T)

  /** One chat message as the application passes it around: a role-tagged dict
      with the keys 'role' and 'content'. */
  datatype Message = Message(role: string, content: string)
}
