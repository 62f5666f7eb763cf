/** The image record shown by both screens. */
module Images {
  import opened KotlinInt

  /** An Android drawable resource, named as it is written `R.drawable.<name>`. Its numeric
      id is assigned by the build and is treated as an opaque handle. */
  datatype Drawable = Drawable(name: string)

  /** An immutable gallery image: a unique id, its drawable and its accessibility text. */
  datatype ImageItem = ImageItem(id: Int32, resourceId: Drawable, contentDescription: string)
}
