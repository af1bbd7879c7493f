# Verifies every module of the model.
includes = ["**/*.dfy"]
