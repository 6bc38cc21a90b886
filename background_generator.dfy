/** `background_generator.py`: the solid background chosen by style name. */
module BackgroundGenerator {
  import opened Imaging

  /** A solid single-colour RGB image: its size and its one colour. */
  datatype Background = Background(width: nat, height: nat, colour: Rgb)

  const Blue: Rgb := Rgb(180, 215, 235)
  const Pink: Rgb := Rgb(255, 220, 230)
  /** The light blue used for every other style. */
  const DefaultBlue: Rgb := Rgb(168, 218, 239)

  /** `generate_background(style, w, h)`: a `w` x `h` image in one colour,
      blue or pink for those two style names and the default light blue for
      any other. */
  function GenerateBackground(style: string, w: nat, h: nat): (bg: Background)
    ensures bg.width == w && bg.height == h
    ensures style == "blue" ==> bg.colour == Blue
    ensures style == "pink" ==> bg.colour == Pink
    ensures style != "blue" && style != "pink" ==> bg.colour == DefaultBlue
  {
    var colour :=
      if style == "blue" then Blue
      else if style == "pink" then Pink
      else DefaultBlue;
    Background(w, h, colour)
  }

  /** The three colours are distinct, so the colour tells which branch was taken. */
  lemma ColoursIdentifyStyle(style: string, w: nat, h: nat)
    ensures GenerateBackground(style, w, h).colour == Blue <==> style == "blue"
    ensures GenerateBackground(style, w, h).colour == Pink <==> style == "pink"
  {
  }
}
