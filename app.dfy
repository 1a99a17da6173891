// The application state of src/app.rs: a single flag that says whether the
// program keeps running. It starts true and `Quit` is the only operation that
// changes it, always to false.

module Application {

  class App {
    /** Whether the application is running. */
    var running: bool

    /** `App::new`: a running application. */
    constructor ()
      ensures running
    {
      running := true;
    }

    /** `Default::default`: the same as `App::new`. */
    static method Default() returns (app: App)
      ensures fresh(app) && app.running
    {
      app := new App();
    }

    /** `App::quit`: stop running, whatever the flag was before. */
    method Quit()
      modifies this
      ensures !running
    {
      running := false;
    }
  }

  /** Calling `quit` twice: the flag is false after each call. */
  method QuitTwice() returns (afterFirst: bool, afterSecond: bool)
    ensures !afterFirst && !afterSecond
  {
    var app := new App();
    app.Quit();
    afterFirst := app.running;
    app.Quit();
    afterSecond := app.running;
  }
}
