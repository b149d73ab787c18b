/** The three social channels the post pipeline serves and the names each
    one goes by in paths, model output and messages. */
module Channels {

  datatype Channel = Instagram | Facebook | LinkedIn

  /** The order `generate_scheduled_posts` works through the channels. */
  const BatchOrder: seq<Channel> := [Instagram, Facebook, LinkedIn]

  /** The lower-case name used in paths and stored documents. */
  function Name(ch: Channel): string {
    match ch
    case Instagram => "instagram"
    case Facebook => "facebook"
    case LinkedIn => "linkedin"
  }

  /** The capitalised name the model must echo and messages use. */
  function Title(ch: Channel): string {
    match ch
    case Instagram => "Instagram"
    case Facebook => "Facebook"
    case LinkedIn => "LinkedIn"
  }

  /** The top-level Firestore collection holding a channel's posts. */
  function PostsCollection(ch: Channel): string {
    Name(ch) + "_posts"
  }
}
