/** The records the UI receives from its three endpoints. Both `PostCard.tsx` and
    `app-entry.tsx` declare these shapes; they are declared once here. */
module Entities {

  /** A post. The ISO-8601 `date` string is kept as the epoch milliseconds it parses to. */
  datatype Post = Post(
    id: string,
    caption: string,
    date: int,
    likes: int,
    comments: int,
    permaLink: string,
    userId: string)

  /** An author record ("user" in the source); it points at a post through `postId`. */
  datatype User = User(id: string, username: string, postId: string)

  /** Per-mode parameters. `rows` is carried but never read by any style derivation. */
  datatype ModeParams = ModeParams(columns: nat, rows: nat)

  datatype LayoutParams = LayoutParams(grid: ModeParams, masonry: ModeParams)

  /** `current` is a free string: the code compares it with "grid" and nothing else. */
  datatype Layout = Layout(current: string, params: LayoutParams)

  datatype Navigation = LoadMore | Pagination

  datatype Settings = Settings(layout: Layout, template: string, navigation: Navigation)

  const GridMode: string := "grid"

  /** The parameters of the mode in effect: every value of `current` other than "grid",
      unknown strings included, selects the masonry parameters. */
  function ActiveParams(layout: Layout): ModeParams {
    if layout.current == GridMode then layout.params.grid else layout.params.masonry
  }
}
