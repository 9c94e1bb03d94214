/** The three Foundation URL operations the dock controller relies on,
    on a file URL seen as its sequence of path components. */
module Urls {

  /** A file URL, modelled as its path components ("/Apps/Foo.app" is ["Apps", "Foo.app"]). */
  type Url = seq<string>

  /** `lastPathComponent`: the final component; the root URL has none and yields "". */
  function LastPathComponent(u: Url): (name: string)
    ensures |u| > 0 ==> u == u[..|u| - 1] + [name]
    ensures u == [] ==> name == ""
  {
    if u == [] then "" else u[|u| - 1]
  }

  /** `deletingLastPathComponent()`: the URL of the containing folder. Together with
      LastPathComponent it splits a non-root URL without losing anything. */
  function DeletingLastPathComponent(u: Url): (folder: Url)
    ensures |u| > 0 ==> folder + [LastPathComponent(u)] == u
    ensures |u| > 0 ==> |folder| == |u| - 1
    ensures u == [] ==> folder == []
  {
    if u == [] then [] else u[..|u| - 1]
  }

  /** `appendingPathComponent(_:)`: the inverse of the split above, whatever the folder. */
  function AppendingPathComponent(folder: Url, name: string): (u: Url)
    ensures DeletingLastPathComponent(u) == folder
    ensures LastPathComponent(u) == name
    ensures |u| == |folder| + 1
  {
    folder + [name]
  }
}
