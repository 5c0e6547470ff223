/** What a power loss may do to directories. */
module Media {
  /** Operations reach the medium in order across all directories, or only within each. */
  datatype Medium = Ordered | Independent
}
